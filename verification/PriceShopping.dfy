/**
 The "no clock" argument: what a dense log with a clock that does not run backwards leaves a spender to
 choose, and what it leaves the service, which always settles on the latest pair.
 */
module PriceShopping {
  import opened Prelude
  import opened Bytes
  import opened Vm
  import opened Terms
  import opened Covenant
  import opened CovenantCorrect
  import opened OracleMessages
  import opened OracleLog
  import opened SettlementFlow

  /** The publisher reads its clock before it takes the lock, so this is an assumption on the clock and the
      scheduling, not something the store enforces. */
  ghost predicate Clocked(table: Table) {
    && (forall k :: k in table ==> table[k].timestamp >= 0)
    && (forall j, k :: j in table && k in table && j <= k ==> table[j].timestamp <= table[k].timestamp)
  }

  /** The message is a row's: what a signature that verifies stands for, as long as nobody else signs with the oracle's
      key and nobody finds a second message with a row's digest. */
  ghost predicate FromTheLog(table: Table, msg: ByteString) {
    exists k :: k in table && table[k].message == msg
  }

  /** Every row carries a signature that verifies. */
  ghost predicate RowsVerify(t: Terms, crypto: Crypto, table: Table) {
    forall k :: k in table ==> CovenantCorrect.Signed(t, crypto, table[k].message, table[k].signature)
  }

  lemma PublicationReadsBack(row: Publication)
    requires SignsItself(row) && row.timestamp >= 0 && row.sequence >= 0 && row.price >= 0
    ensures |row.message| == MESSAGE_LENGTH
    ensures MessageField(row.message, TIMESTAMP_OFFSET) == row.timestamp
    ensures MessageField(row.message, SEQUENCE_OFFSET) == row.sequence
    ensures MessageField(row.message, PRICE_OFFSET) == row.price
  {
    CovenantReadsTheMessage(AsUint64(row.timestamp), AsUint64(row.sequence), AsUint64(row.price));
  }

  lemma RowReadsBack(table: Table, k: int)
    requires Dense(table) && Clocked(table) && k in table
    ensures var msg := table[k].message;
            && |msg| == MESSAGE_LENGTH
            && MessageField(msg, TIMESTAMP_OFFSET) == table[k].timestamp
            && MessageField(msg, SEQUENCE_OFFSET) == k
            && MessageField(msg, PRICE_OFFSET) == table[k].price
  {
    assert SignsItself(table[k]);
    PublicationReadsBack(table[k]);
  }

  /** The pair (k - 1, k) entitles its holder to settle, said on the rows. */
  predicate RowsEntitle(t: Terms, table: Table, k: int)
    requires k in table && k - 1 in table
  {
    && table[k - 1].timestamp < t.maturity
    && table[k].timestamp >= t.start
    && Settleable(t, table[k].price, table[k].timestamp)
  }

  lemma EntitlementOnRows(t: Terms, table: Table, j: int, k: int)
    requires Dense(table) && Clocked(table) && j in table && k in table
    ensures Entitles(t, table[j].message, table[k].message) <==> j == k - 1 && RowsEntitle(t, table, k)
  {
    RowReadsBack(table, j);
    RowReadsBack(table, k);
  }

  /** The first publication at or past maturity. */
  ghost predicate IsFirstMatured(t: Terms, table: Table, k: int) {
    && k in table && table[k].timestamp >= t.maturity
    && forall j :: j in table && j < k ==> table[j].timestamp < t.maturity
  }

  lemma FirstMaturedIsUnique(t: Terms, table: Table, j: int, k: int)
    requires IsFirstMatured(t, table, j) && IsFirstMatured(t, table, k)
    ensures j == k
  {
  }

  /** A matured message with a predecessor before maturity is the first one past maturity, and there is one
      exactly when the log crosses maturity. */
  lemma StraddlingPairIsTheFirstMatured(t: Terms, table: Table, k: int)
    requires Dense(table) && Clocked(table)
    ensures 2 <= k <= |table| && table[k - 1].timestamp < t.maturity <= table[k].timestamp
            <==> IsFirstMatured(t, table, k) && k >= 2
  {
  }

  lemma LogCrossesMaturity(t: Terms, table: Table)
    requires Dense(table) && Clocked(table) && |table| >= 1
    ensures (exists k :: k >= 2 && IsFirstMatured(t, table, k))
            <==> table[1].timestamp < t.maturity <= table[|table|].timestamp
  {
    if table[1].timestamp < t.maturity <= table[|table|].timestamp {
      var k := FindCrossing(t, table, 1, |table|);
      StraddlingPairIsTheFirstMatured(t, table, k);
    }
  }

  lemma {:induction false} FindCrossing(t: Terms, table: Table, lo: int, hi: int) returns (k: int)
    requires Dense(table) && 1 <= lo <= hi <= |table|
    requires table[lo].timestamp < t.maturity <= table[hi].timestamp
    ensures lo < k <= hi && table[k - 1].timestamp < t.maturity <= table[k].timestamp
    decreases hi - lo
  {
    if table[lo + 1].timestamp >= t.maturity {
      k := lo + 1;
    } else {
      k := FindCrossing(t, table, lo + 1, hi);
    }
  }

  /** Every split the log leaves open for a contract. */
  ghost function Outcomes(t: Terms, table: Table): set<(Int64, Int64)>
    requires Valid(t) && Dense(table)
  {
    {SettlementSplit(t, t.low).value, SettlementSplit(t, t.high).value}
    + set k | k in table && IsFirstMatured(t, table, k) :: SettlementSplit(t, table[k].price).value
  }

  /** At most three: the low boundary's, the high boundary's, and the first price past maturity's. */
  lemma AtMostThreeOutcomes(t: Terms, table: Table)
    requires Valid(t) && Dense(table)
    ensures |Outcomes(t, table)| <= 3
  {
    var boundaries := {SettlementSplit(t, t.low).value, SettlementSplit(t, t.high).value};
    var matured := set k | k in table && IsFirstMatured(t, table, k) :: SettlementSplit(t, table[k].price).value;
    if k :| k in table && IsFirstMatured(t, table, k) {
      forall j | j in table && IsFirstMatured(t, table, j) ensures j == k {
        FirstMaturedIsUnique(t, table, j, k);
      }
      assert matured == {SettlementSplit(t, table[k].price).value};
    } else {
      assert matured == {};
    }
    assert |boundaries + matured| <= |boundaries| + |matured|;
  }

  lemma AcceptedParts(t: Terms, crypto: Crypto, items: seq<ByteString>, tx: Spend)
    requires Valid(t) && |items| == 4 && Accepts(Compile(t, crypto).value, items, crypto, tx)
    ensures CovenantCorrect.Signed(t, crypto, items[1], items[0])
    ensures CovenantCorrect.Signed(t, crypto, items[3], items[2])
    ensures Entitles(t, items[3], items[1]) && Pays(t, tx, MessageField(items[1], PRICE_OFFSET))
  {
    CompiledCovenantIsCorrect(t, crypto, items, tx);
  }

  lemma EntitledMessagesAreRows(t: Terms, table: Table, items: seq<ByteString>) returns (k: int)
    requires Dense(table) && Clocked(table) && |items| == 4
    requires FromTheLog(table, items[1]) && FromTheLog(table, items[3])
    requires Entitles(t, items[3], items[1])
    ensures 2 <= k <= |table| && items[1] == table[k].message && items[3] == table[k - 1].message
    ensures RowsEntitle(t, table, k) && MessageField(items[1], PRICE_OFFSET) == table[k].price
  {
    k :| k in table && table[k].message == items[1];
    var j :| j in table && table[j].message == items[3];
    EntitlementOnRows(t, table, j, k);
    RowReadsBack(table, k);
  }

  /** An accepted spend uses two neighbouring rows of the log, and pays the split at the later one. */
  lemma AcceptedSpendUsesTheLog(t: Terms, crypto: Crypto, table: Table, items: seq<ByteString>, tx: Spend)
    returns (k: int)
    requires Valid(t) && Dense(table) && Clocked(table) && |items| == 4
    requires FromTheLog(table, items[1]) && FromTheLog(table, items[3])
    requires Accepts(Compile(t, crypto).value, items, crypto, tx)
    ensures 2 <= k <= |table| && items[1] == table[k].message && items[3] == table[k - 1].message
    ensures RowsEntitle(t, table, k) && Pays(t, tx, table[k].price)
  {
    AcceptedParts(t, crypto, items, tx);
    k := EntitledMessagesAreRows(t, table, items);
  }

  /** No price shopping: with every message of the log to choose from, any signatures and any transaction, a spend the
      covenant accepts pays one of those three splits. */
  lemma NoPriceShopping(t: Terms, crypto: Crypto, table: Table, items: seq<ByteString>, tx: Spend)
    requires Valid(t) && Dense(table) && Clocked(table) && |items| == 4
    requires FromTheLog(table, items[1]) && FromTheLog(table, items[3])
    requires Accepts(Compile(t, crypto).value, items, crypto, tx)
    ensures |tx.outputs| >= 2
    ensures (tx.outputs[0].value, tx.outputs[1].value) in Outcomes(t, table)
  {
    var k := AcceptedSpendUsesTheLog(t, crypto, table, items, tx);
    BoundaryIsFlat(t, table[k].price);
    if !Liquidated(t, table[k].price) {
      StraddlingPairIsTheFirstMatured(t, table, k);
      assert IsFirstMatured(t, table, k);
    }
  }

  function PairOfRows(settlement: Publication, previous: Publication): Pair {
    Pair(SignedPrice(settlement.message, settlement.signature), SignedPrice(previous.message, previous.signature))
  }

  /** The service's settlement from a pair can be built, and the covenant takes it. */
  predicate SettlesWith(t: Terms, crypto: Crypto, pair: Pair, extension: TxOut)
    requires Valid(t)
  {
    && SettlementSpend(t, crypto, pair, extension).Ok?
    && Accepts(Compile(t, crypto).value, SettlementWitness(pair), crypto,
               SettlementSpend(t, crypto, pair, extension).value)
  }

  /** What the service's settlement comes to when it uses the pair at k. */
  predicate SettlesAt(t: Terms, crypto: Crypto, table: Table, k: int, extension: TxOut)
    requires Valid(t) && k in table && k - 1 in table
  {
    SettlesWith(t, crypto, PairOfRows(table[k], table[k - 1]), extension)
  }

  /** The service can build a settlement from any row whose price it can read. */
  lemma SpendIsBuilt(t: Terms, crypto: Crypto, table: Table, k: int, extension: TxOut)
    requires Valid(t) && Dense(table) && Clocked(table) && RowsVerify(t, crypto, table) && k in table && k - 1 in table
    ensures table[k].price <= MAX_PRICE <==>
            SettlementSpend(t, crypto, PairOfRows(table[k], table[k - 1]), extension).Ok?
  {
    RowReadsBack(table, k);
    PriceFromIsTheCovenantsPrice(t, crypto, table[k].message, table[k].signature);
  }

  lemma BuiltSpendVerdict(t: Terms, crypto: Crypto, pair: Pair, extension: TxOut)
    requires Valid(t)
    ensures SettlesWith(t, crypto, pair, extension)
            <==>
            SettlementSpend(t, crypto, pair, extension).Ok?
            && CovenantCorrect.Signed(t, crypto, pair.previous.message, pair.previous.signature)
            && Entitles(t, pair.previous.message, pair.settlement.message)
  {
    if SettlementSpend(t, crypto, pair, extension).Ok? {
      BuiltSettlementIsAccepted(t, crypto, pair, extension);
    }
  }

  lemma RowsSettle(t: Terms, crypto: Crypto, table: Table, k: int, extension: TxOut)
    requires Valid(t) && Dense(table) && Clocked(table) && RowsVerify(t, crypto, table) && 2 <= k <= |table|
    ensures var pair := PairOfRows(table[k], table[k - 1]);
            && SettlementSpend(t, crypto, pair, extension).Ok?
            && CovenantCorrect.Signed(t, crypto, pair.previous.message, pair.previous.signature)
            && Entitles(t, pair.previous.message, pair.settlement.message)
            <==> RowsEntitle(t, table, k) && table[k].price <= MAX_PRICE
  {
    assert k in table && k - 1 in table;
    SpendIsBuilt(t, crypto, table, k, extension);
    EntitlementOnRows(t, table, k - 1, k);
  }

  /** Where settling from the log works: exactly at the pairs that entitle, for prices the service can read. */
  lemma SettlesExactlyAtEntitlingPairs(t: Terms, crypto: Crypto, table: Table, k: int, extension: TxOut)
    requires Valid(t) && Dense(table) && Clocked(table) && RowsVerify(t, crypto, table)
    requires 2 <= k <= |table|
    ensures SettlesAt(t, crypto, table, k, extension) <==> RowsEntitle(t, table, k) && table[k].price <= MAX_PRICE
  {
    BuiltSpendVerdict(t, crypto, PairOfRows(table[k], table[k - 1]), extension);
    RowsSettle(t, crypto, table, k, extension);
  }

  /** Once the log has crossed maturity, some pair settles the contract. */
  lemma MaturityCanBeSettled(t: Terms, crypto: Crypto, table: Table, extension: TxOut) returns (k: int)
    requires Valid(t) && Dense(table) && Clocked(table) && RowsVerify(t, crypto, table)
    requires forall k :: k in table ==> table[k].price <= MAX_PRICE
    requires |table| >= 2 && table[1].timestamp < t.maturity <= table[|table|].timestamp
    ensures 2 <= k <= |table| && IsFirstMatured(t, table, k) && SettlesAt(t, crypto, table, k, extension)
  {
    k := FindCrossing(t, table, 1, |table|);
    StraddlingPairIsTheFirstMatured(t, table, k);
    SettlesExactlyAtEntitlingPairs(t, crypto, table, k, extension);
  }

  /** service/internal/app/settlement.go: Settle lets a contract through on the latest price alone. */
  predicate SettleGuard(t: Terms, table: Table)
    requires |table| in table
  {
    Settleable(t, table[|table|].price, table[|table|].timestamp)
  }

  /** What the guard refuses: a latest price strictly inside the range, before maturity. */
  lemma GuardRefusesExactly(t: Terms, table: Table)
    requires |table| in table
    ensures !SettleGuard(t, table) <==>
            t.low < table[|table|].price < t.high && table[|table|].timestamp < t.maturity
  {
  }

  /** A log that has been published to since. */
  predicate Extends(later: Table, earlier: Table) {
    |later| >= |earlier| && forall k | k in earlier :: k in later && later[k] == earlier[k]
  }

  /** The guard is not the covenant's rule, and it is looked at earlier: a request reads the price, and the worker reads
      the pair some publications later. A contract the guard lets through settles on that pair exactly when its
      predecessor is still before maturity, the message is not before the start, and the price, should it have been a
      liquidation, is still out of bounds. */
  lemma GuardAgainstCovenant(t: Terms, crypto: Crypto, atRequest: Table, atWork: Table, extension: TxOut)
    requires Valid(t) && Dense(atRequest) && Dense(atWork) && Extends(atWork, atRequest)
    requires Clocked(atWork) && RowsVerify(t, crypto, atWork)
    requires |atRequest| >= 1 && |atWork| >= 2 && atWork[|atWork|].price <= MAX_PRICE && SettleGuard(t, atRequest)
    ensures var last := atWork[|atWork|];
            SettlesAt(t, crypto, atWork, |atWork|, extension)
            <==> && atWork[|atWork| - 1].timestamp < t.maturity && last.timestamp >= t.start
                 && (Matured(t, atRequest[|atRequest|].timestamp) || Settleable(t, last.price, last.timestamp))
  {
    var n := |atRequest|;
    assert n in atRequest && atWork[n] == atRequest[n];
    assert atWork[n].timestamp <= atWork[|atWork|].timestamp;
    SettlesExactlyAtEntitlingPairs(t, crypto, atWork, |atWork|, extension);
  }

  /** So a liquidation the guard saw is lost on a worker that comes when the price is back inside, although the pair
      that liquidated still settles the contract for whoever presents it. */
  lemma LiquidationMissed(t: Terms, crypto: Crypto, atRequest: Table, atWork: Table, extension: TxOut)
    requires Valid(t) && Dense(atRequest) && Dense(atWork) && Extends(atWork, atRequest)
    requires Clocked(atWork) && RowsVerify(t, crypto, atWork) && |atRequest| >= 2
    requires var seen := atRequest[|atRequest|];
             && Liquidated(t, seen.price) && seen.price <= MAX_PRICE && seen.timestamp >= t.start
    requires var last := atWork[|atWork|];
             last.price <= MAX_PRICE && !Settleable(t, last.price, last.timestamp)
    ensures SettleGuard(t, atRequest) && !SettlesAt(t, crypto, atWork, |atWork|, extension)
    ensures SettlesAt(t, crypto, atWork, |atRequest|, extension)
  {
    var n := |atRequest|;
    assert n in atRequest && n - 1 in atRequest && atWork[n] == atRequest[n] && atWork[n - 1] == atRequest[n - 1];
    assert atWork[n - 1].timestamp <= atWork[|atWork|].timestamp;
    SettlesExactlyAtEntitlingPairs(t, crypto, atWork, |atWork|, extension);
    SettlesExactlyAtEntitlingPairs(t, crypto, atWork, n, extension);
  }

  /** Two publications past maturity close that door for good: on every log that extends this one the guard
      passes and the latest pair is refused, although the pair at maturity still settles. */
  lemma MissedMaturityStaysMissed(t: Terms, crypto: Crypto, table: Table, later: Table, extension: TxOut)
    requires Valid(t) && Dense(table) && |table| >= 2 && table[|table| - 1].timestamp >= t.maturity
    requires Dense(later) && Clocked(later) && RowsVerify(t, crypto, later) && |later| >= |table|
    requires forall k :: k in table ==> later[k] == table[k]
    ensures SettleGuard(t, later) && !SettlesAt(t, crypto, later, |later|, extension)
  {
    assert later[|table| - 1].timestamp >= t.maturity;
    SettlesExactlyAtEntitlingPairs(t, crypto, later, |later|, extension);
  }

  // --- Two logs --------------------------------------------------------------

  /** A log of these times and prices, every row signed by one signer. */
  function Published(sign: ByteString -> ByteString, rows: seq<(Int64, Int64)>): Table
    requires IsInt64(|rows|)
  {
    if |rows| == 0 then map[]
    else
      var n := |rows|;
      var (timestamp, price) := rows[n - 1];
      var message := MessageOf(n, timestamp, price);
      Published(sign, rows[..n - 1])[n := Publication(n, timestamp, price, message, sign(message))]
  }

  lemma PublishedNext(sign: ByteString -> ByteString, rows: seq<(Int64, Int64)>, more: (Int64, Int64))
    requires IsInt64(|rows| + 1)
    ensures var n := |rows| + 1;
            var message := MessageOf(n, more.0, more.1);
            Published(sign, rows + [more])
            == Published(sign, rows)[n := Publication(n, more.0, more.1, message, sign(message))]
  {
    assert (rows + [more])[..|rows|] == rows;
  }

  /** Positive prices, and times that do not run backwards. */
  predicate Sane(rows: seq<(Int64, Int64)>) {
    && (forall k | 0 <= k < |rows| :: rows[k].0 >= 0 && rows[k].1 > 0)
    && (forall j, k | 0 <= j <= k < |rows| :: rows[j].0 <= rows[k].0)
  }

  /** The log holds the rows and nothing else. */
  ghost predicate LogsExactly(table: Table, rows: seq<(Int64, Int64)>) {
    && Dense(table) && |table| == |rows|
    && forall k | 1 <= k <= |rows| :: table[k].timestamp == rows[k - 1].0 && table[k].price == rows[k - 1].1
  }

  lemma OneMoreRow(table: Table, rows: seq<(Int64, Int64)>, row: Publication)
    requires |rows| > 0 && IsInt64(|rows|) && LogsExactly(table, rows[..|rows| - 1])
    requires WellFormedRow(|rows|, row) && row.timestamp == rows[|rows| - 1].0 && row.price == rows[|rows| - 1].1
    ensures LogsExactly(table[|rows| := row], rows)
  {
    DenseExtends(table, row);
    var later := table[|rows| := row];
    forall k | 1 <= k <= |rows| ensures later[k].timestamp == rows[k - 1].0 && later[k].price == rows[k - 1].1 {
      assert k < |rows| ==> rows[..|rows| - 1][k - 1] == rows[k - 1];
    }
  }

  lemma {:induction false} PublishedIsDense(sign: ByteString -> ByteString, rows: seq<(Int64, Int64)>)
    requires IsInt64(|rows|) && Sane(rows)
    ensures LogsExactly(Published(sign, rows), rows)
  {
    if |rows| > 0 {
      var n := |rows|;
      PublishedIsDense(sign, rows[..n - 1]);
      OneMoreRow(Published(sign, rows[..n - 1]), rows, Published(sign, rows)[n]);
    }
  }

  lemma ExactLogsAreClocked(table: Table, rows: seq<(Int64, Int64)>)
    requires LogsExactly(table, rows) && Sane(rows)
    ensures Clocked(table)
  {
  }

  lemma OneMoreExtends(table: Table, row: Publication)
    requires Dense(table)
    ensures Extends(table[|table| + 1 := row], table)
  {
  }

  /** 100,000 dollars and a drop to 50,000. */
  const DROP: seq<(Int64, Int64)> := [(10, 10_000_000), (20, 5_000_000)]

  const BACK: (Int64, Int64) := (30, 10_000_000)

  /** The same, and back. */
  const DIP: seq<(Int64, Int64)> := [(10, 10_000_000), (20, 5_000_000), (30, 10_000_000)]

  /** 100,000 dollars before maturity, at it and after it. */
  const LATE: seq<(Int64, Int64)> := [(990, 10_000_000), (1_000, 10_000_000), (1_010, 10_000_000)]

  lemma DipIsSane()
    ensures Sane(DROP) && Sane(DIP) && |DROP| == 2 && |DIP| == 3 && DROP + [BACK] == DIP
  {
  }

  lemma DipIsLogged(atRequest: Table, atWork: Table)
    requires LogsExactly(atRequest, DROP) && LogsExactly(atWork, DIP)
    ensures |atRequest| == 2 && |atWork| == 3 && Clocked(atWork)
    ensures 1 in atWork && 2 in atWork && 3 in atWork && 2 in atRequest
    ensures Liquidated(EXAMPLE, atRequest[2].price) && atRequest[2].timestamp == 20
    ensures atRequest[2].price <= MAX_PRICE && atWork[3].price <= MAX_PRICE
    ensures !Settleable(EXAMPLE, atWork[3].price, atWork[3].timestamp)
  {
    DipIsSane();
    ExactLogsAreClocked(atWork, DIP);
  }

  lemma LaterLogsExtend(sign: ByteString -> ByteString, rows: seq<(Int64, Int64)>, more: (Int64, Int64))
    requires IsInt64(|rows| + 1) && Sane(rows)
    ensures Extends(Published(sign, rows + [more]), Published(sign, rows))
  {
    var n := |rows| + 1;
    var message := MessageOf(n, more.0, more.1);
    PublishedIsDense(sign, rows);
    PublishedNext(sign, rows, more);
    OneMoreExtends(Published(sign, rows), Publication(n, more.0, more.1, message, sign(message)));
  }

  lemma DipExtendsTheDrop(sign: ByteString -> ByteString)
    ensures LogsExactly(Published(sign, DROP), DROP) && LogsExactly(Published(sign, DIP), DIP)
    ensures Extends(Published(sign, DIP), Published(sign, DROP))
  {
    DipIsSane();
    PublishedIsDense(sign, DROP);
    PublishedIsDense(sign, DIP);
    LaterLogsExtend(sign, DROP, BACK);
  }

  lemma DipIsMissedOn(crypto: Crypto, atRequest: Table, atWork: Table, extension: TxOut)
    requires LogsExactly(atRequest, DROP) && LogsExactly(atWork, DIP) && Extends(atWork, atRequest)
    requires RowsVerify(EXAMPLE, crypto, atWork)
    ensures 1 in atWork && 2 in atWork && 3 in atWork && 2 in atRequest && SettleGuard(EXAMPLE, atRequest)
    ensures !SettlesAt(EXAMPLE, crypto, atWork, 3, extension) && SettlesAt(EXAMPLE, crypto, atWork, 2, extension)
  {
    DipIsLogged(atRequest, atWork);
    LiquidationMissed(EXAMPLE, crypto, atRequest, atWork, extension);
  }

  /** A liquidation that is missed: requested at the drop, worked on once the price is back. */
  lemma DipIsMissed(crypto: Crypto, sign: ByteString -> ByteString, extension: TxOut)
    requires RowsVerify(EXAMPLE, crypto, Published(sign, DIP))
    ensures var (atRequest, atWork) := (Published(sign, DROP), Published(sign, DIP));
            && |atRequest| == 2 && 1 in atWork && 2 in atWork && 3 in atWork && 2 in atRequest
            && SettleGuard(EXAMPLE, atRequest)
            && !SettlesAt(EXAMPLE, crypto, atWork, 3, extension) && SettlesAt(EXAMPLE, crypto, atWork, 2, extension)
  {
    DipExtendsTheDrop(sign);
    DipIsMissedOn(crypto, Published(sign, DROP), Published(sign, DIP), extension);
  }

  lemma LateIsSane()
    ensures Sane(LATE) && |LATE| == 3
  {
  }

  lemma LateIsLogged(log: Table)
    requires LogsExactly(log, LATE)
    ensures |log| == 3 && 1 in log && 2 in log && 3 in log && Clocked(log)
    ensures RowsEntitle(EXAMPLE, log, 2) && log[2].price <= MAX_PRICE && log[2].timestamp >= EXAMPLE.maturity
  {
    LateIsSane();
    ExactLogsAreClocked(log, LATE);
  }

  lemma LateIsMissedOn(crypto: Crypto, log: Table, extension: TxOut)
    requires LogsExactly(log, LATE) && RowsVerify(EXAMPLE, crypto, log)
    ensures |log| == 3 && 1 in log && 2 in log && 3 in log && SettleGuard(EXAMPLE, log)
    ensures !SettlesAt(EXAMPLE, crypto, log, 3, extension) && SettlesAt(EXAMPLE, crypto, log, 2, extension)
  {
    LateIsLogged(log);
    MissedMaturityStaysMissed(EXAMPLE, crypto, log, log, extension);
    SettlesExactlyAtEntitlingPairs(EXAMPLE, crypto, log, 2, extension);
  }

  /** A maturity that is missed, for ever, by one publication. */
  lemma LateIsMissed(crypto: Crypto, sign: ByteString -> ByteString, extension: TxOut)
    requires RowsVerify(EXAMPLE, crypto, Published(sign, LATE))
    ensures var log := Published(sign, LATE);
            && |log| == 3 && 1 in log && 2 in log && 3 in log && SettleGuard(EXAMPLE, log)
            && !SettlesAt(EXAMPLE, crypto, log, 3, extension) && SettlesAt(EXAMPLE, crypto, log, 2, extension)
  {
    LateIsSane();
    PublishedIsDense(sign, LATE);
    LateIsMissedOn(crypto, Published(sign, LATE), extension);
  }
}
