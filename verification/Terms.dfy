/** The contract's parameters and the payout rule in Go arithmetic: contract/settlement.go's Terms and
    contract/arbitration.go's SettlementSplit. */
module Terms {
  import opened Prelude
  import opened Bytes

  const DUST: Int64 := 1332

  datatype Terms = Terms(
    nominal: Int64, leverage: Int64, payout: Int64, low: Int64, high: Int64,
    shortScript: ByteString, longScript: ByteString, oracleKey: ByteString,
    start: Int64, maturity: Int64)

  datatype TermsError =
    | NominalNotPositive | PayoutNotPositive | PayoutBelowDust | LowNotPositive | HighNotAboveLow
    | LeverageNegative | ShortScriptEmpty | LongScriptEmpty | OracleKeyLength | StartNotPositive
    | MaturityNotAfterStart

  /** The first rule the terms break, in the order they are checked. */
  function Validate(t: Terms): Option<TermsError> {
    if t.nominal <= 0 then Some(NominalNotPositive)
    else if t.payout <= 0 then Some(PayoutNotPositive)
    else if t.payout < 2 * DUST then Some(PayoutBelowDust)
    else if t.low <= 0 then Some(LowNotPositive)
    else if t.high <= t.low then Some(HighNotAboveLow)
    else if t.leverage < 0 then Some(LeverageNegative)
    else if |t.shortScript| == 0 then Some(ShortScriptEmpty)
    else if |t.longScript| == 0 then Some(LongScriptEmpty)
    else if |t.oracleKey| != 32 then Some(OracleKeyLength)
    else if t.start <= 0 then Some(StartNotPositive)
    else if t.maturity <= t.start then Some(MaturityNotAfterStart)
    else None
  }

  predicate Valid(t: Terms) {
    Validate(t).None?
  }

  /** What a contract has to be for anything to be built from it. */
  lemma ValidTerms(t: Terms)
    ensures Valid(t) <==>
            && t.nominal > 0 && t.leverage >= 0 && t.payout >= 2 * DUST && 0 < t.low < t.high
            && t.shortScript != [] && t.longScript != [] && |t.oracleKey| == 32 && 0 < t.start < t.maturity
  {
  }

  datatype SplitError = BadTerms(why: TermsError) | PriceNotPositive

  /** Go's clamp: raised to the low boundary first, then capped at the high one. */
  function Clamp(t: Terms, price: Int64): Int64 {
    Min(Max(price, t.low), t.high)
  }

  /** The payout rule. Every intermediate value is typed Int64, so Go's arithmetic never wraps in it. */
  function SettlementSplit(t: Terms, price: Int64): Result<(Int64, Int64), SplitError> {
    if Validate(t).Some? then Err(BadTerms(Validate(t).value))
    else if price <= 0 then Err(PriceNotPositive)
    else
      var clamped := Clamp(t, price);
      QuotientBound(t.nominal, clamped);
      var raw: Int64 := t.nominal / clamped - t.leverage;
      var floored: Int64 := Max(raw, DUST);
      var short: Int64 := Min(floored, t.payout - DUST);
      Ok((short, t.payout - short))
  }

  lemma QuotientBound(n: int, d: int)
    requires n >= 0 && d > 0
    ensures 0 <= n / d <= n
  {
    QuotientAtLeast(n, d, 0);
    QuotientAtLeast(n, d, n + 1);
    MulMonotone(n + 1, 1, d);
  }

  /** Truncated division, without the division: k fits below the quotient exactly when k * d fits below n. */
  lemma QuotientAtLeast(n: int, d: int, k: int)
    requires n >= 0 && d > 0
    ensures k <= n / d <==> k * d <= n
  {
    var q, r := n / d, n % d;
    assert n == q * d + r && 0 <= r < d;
    if k <= q {
      assert k * d <= q * d;
    } else {
      assert k * d >= (q + 1) * d == q * d + d;
    }
  }

  /** What the short is owed, said without dividing: the largest amount that leaves both sides dust and whose
      value at the clamped price, leverage included, is covered by the nominal, or dust when none is. */
  predicate IsShortShare(t: Terms, price: Int64, short: int) {
    var c := Clamp(t, price);
    && DUST <= short <= t.payout - DUST
    && (short > DUST ==> (short + t.leverage) * c <= t.nominal)
    && (short < t.payout - DUST ==> (short + 1 + t.leverage) * c > t.nominal)
  }

  /** The split is that amount and no other, the rest goes to the long, and bad input is all it refuses. */
  lemma SplitIsTheShortShare(t: Terms, price: Int64, short: Int64, long: Int64)
    ensures SettlementSplit(t, price) == Ok((short, long))
            <==> Valid(t) && price > 0 && IsShortShare(t, price, short) && short + long == t.payout
    ensures SettlementSplit(t, price).Ok? <==> Valid(t) && price > 0
  {
    if Valid(t) && price > 0 {
      var c := Clamp(t, price);
      var s := SettlementSplit(t, price).value.0;
      QuotientAtLeast(t.nominal, c, s + t.leverage);
      QuotientAtLeast(t.nominal, c, s + 1 + t.leverage);
      assert IsShortShare(t, price, s);
      QuotientAtLeast(t.nominal, c, short + t.leverage);
      QuotientAtLeast(t.nominal, c, short + 1 + t.leverage);
    }
  }

  /** A rising price never pays the short more. */
  lemma ShortFallsAsThePriceRises(t: Terms, lower: Int64, higher: Int64)
    requires Valid(t) && 0 < lower <= higher
    ensures SettlementSplit(t, higher).value.0 <= SettlementSplit(t, lower).value.0
  {
    QuotientFalls(t.nominal, Clamp(t, lower), Clamp(t, higher));
  }

  lemma QuotientFalls(n: int, c: int, d: int)
    requires n >= 0 && 0 < c <= d
    ensures n / d <= n / c
  {
    var q := n / d;
    QuotientAtLeast(n, d, 0);
    QuotientAtLeast(n, d, q);
    MulMonotone(q, c, d);
    QuotientAtLeast(n, c, q);
  }

  lemma MulMonotone(k: int, a: int, b: int)
    requires k >= 0 && a <= b
    ensures k * a <= k * b
  {
  }

  /** Beyond a boundary every price pays as the boundary does, so there is nothing to pick among them. */
  lemma BoundaryIsFlat(t: Terms, price: Int64)
    requires Valid(t) && price > 0
    ensures price <= t.low ==> SettlementSplit(t, price) == SettlementSplit(t, t.low)
    ensures price >= t.high ==> SettlementSplit(t, price) == SettlementSplit(t, t.high)
  {
  }

  /** Where neither floor nor cap binds, the short's sats are worth the nominal to within one price step. */
  lemma HedgeAccuracy(t: Terms, price: Int64)
    requires Valid(t) && price > 0
    requires DUST <= t.nominal / Clamp(t, price) - t.leverage <= t.payout - DUST
    ensures var c := Clamp(t, price);
            t.nominal - c < (SettlementSplit(t, price).value.0 + t.leverage) * c <= t.nominal
  {
  }

  /** service/internal/domain/contract.go: touching a boundary is the event. */
  predicate Liquidated(t: Terms, price: int) {
    price <= t.low || price >= t.high
  }

  predicate Matured(t: Terms, timestamp: int) {
    timestamp >= t.maturity
  }

  predicate Settleable(t: Terms, price: int, timestamp: int) {
    Liquidated(t, price) || Matured(t, timestamp)
  }

  const SCALE := 100_000_000

  /** domain.NominalUnits in int64 arithmetic, and its inverse. */
  function NominalUnits(hedgeValueCents: Int64): Int64 {
    Wrap64(hedgeValueCents * SCALE)
  }

  function HedgeValueCents(nominalUnits: Int64): int {
    TruncDiv(nominalUnits, SCALE)
  }

  /** The scaling comes back exactly when the product fits an int64. A hedge past 92,233,720,368 cents wraps,
      which Proposal.validate does not look for. */
  lemma NominalRoundTrip(cents: Int64)
    ensures HedgeValueCents(NominalUnits(cents)) == cents <==> -92_233_720_368 <= cents <= 92_233_720_368
  {
  }

  // --- An example ------------------------------------------------------------

  const SOME_KEY: ByteString := [
    0, 0, 0, 0, 0, 0, 0, 0, 0, 0, 0, 0, 0, 0, 0, 0,
    0, 0, 0, 0, 0, 0, 0, 0, 0, 0, 0, 0, 0, 0, 0, 1]

  /** A 0.2 bitcoin contract between 50,000 and 200,000 dollars. */
  const EXAMPLE: Terms := Terms(
    100_000_000_000_000, 0, 20_000_000, 5_000_000, 20_000_000, [1], [2], SOME_KEY, 1, 1_000)
}
