/** One asset's oracle record: price updates with a change limit and absolute bounds, and the guarded read. */
module Oracle {
  import opened Arith
  import opened Prelude

  datatype OracleRecord = OracleRecord(
    price: Option<int>, lastUpdated: Option<nat>, prevPrice: Option<int>,
    maxChangeBps: Option<nat>, minPrice: Option<int>, maxPrice: Option<int>)

  const NO_ORACLE: OracleRecord := OracleRecord(None, None, None, None, None, None)

  const DEFAULT_MAX_AGE: nat := 86_400

  /** The relative change of an update, in basis points of the current price. */
  function ChangeBps(current: int, price: int): int
    requires current > 0
  {
    (if price > current then price - current else current - price) * 10_000 / current
  }

  predicate ChangeTooLarge(o: OracleRecord, price: int) {
    && o.price.Some? && o.price.value > 0
    && o.maxChangeBps.Some? && o.maxChangeBps.value > 0
    && ChangeBps(o.price.value, price) > o.maxChangeBps.value
  }

  function SetPrice(o: OracleRecord, price: int, now: nat): Result<OracleRecord> {
    if price <= 0 then Err(InvalidAmount)
    else if ChangeTooLarge(o, price) then Err(OraclePriceChangeExceedsLimit)
    else if o.minPrice.Some? && price < o.minPrice.value then Err(OraclePriceOutOfBounds)
    else if o.maxPrice.Some? && price > o.maxPrice.value then Err(LiquidationTooLarge)
    else Ok(o.(price := Some(price), lastUpdated := Some(now),
               prevPrice := if o.price.Some? then o.price else o.prevPrice))
  }

  function SetBounds(o: OracleRecord, min: int, max: int): Result<OracleRecord> {
    if min <= 0 then Err(InvalidAmount)
    else if min > max then Err(OraclePriceOutOfBounds)
    else if o.price.Some? && (o.price.value < min || o.price.value > max) then Err(OraclePriceOutOfBounds)
    else Ok(o.(minPrice := Some(min), maxPrice := Some(max)))
  }

  function ReadPrice(o: OracleRecord, now: nat, maxAge: nat): (r: Result<int>)
    ensures r.Ok? ==> r.value > 0
  {
    if o.price.None? then Err(OraclePriceMissing)
    else if o.price.value <= 0 then Err(InvalidAmount)
    else if o.lastUpdated.None? then Err(OraclePriceMissing)
    else if now - o.lastUpdated.value > maxAge then Err(OraclePriceStale)
    else Ok(o.price.value)
  }

  /** A stored positive price no older than the limit. */
  predicate FreshAt(o: OracleRecord, now: nat, maxAge: nat) {
    && o.price.Some? && o.price.value > 0
    && o.lastUpdated.Some? && now - o.lastUpdated.value <= maxAge
  }

  /** A price is read exactly when it is there, positive and fresh, and it is the stored one. */
  lemma ReadPriceIff(o: OracleRecord, now: nat, maxAge: nat)
    ensures ReadPrice(o, now, maxAge).Ok? <==> FreshAt(o, now, maxAge)
    ensures FreshAt(o, now, maxAge) ==> ReadPrice(o, now, maxAge) == Ok(o.price.value)
  {
  }

  /**
   * An update is accepted exactly when the price is positive, within the bounds, and, if a positive limit and a
   * positive price are stored, moves it by less than the limit plus one basis point; then it is stored with its time.
   */
  lemma SetPriceIff(o: OracleRecord, price: int, now: nat)
    ensures SetPrice(o, price, now).Ok? <==>
      && price > 0
      && (o.minPrice.Some? ==> o.minPrice.value <= price) && (o.maxPrice.Some? ==> price <= o.maxPrice.value)
      && (o.price.Some? && o.price.value > 0 && o.maxChangeBps.Some? && o.maxChangeBps.value > 0 ==>
            && (price - o.price.value) * 10_000 < (o.maxChangeBps.value + 1) * o.price.value
            && (o.price.value - price) * 10_000 < (o.maxChangeBps.value + 1) * o.price.value)
    ensures SetPrice(o, price, now).Ok? ==>
      && SetPrice(o, price, now).value.price == Some(price) && SetPrice(o, price, now).value.lastUpdated == Some(now)
      && SetPrice(o, price, now).value.minPrice == o.minPrice && SetPrice(o, price, now).value.maxPrice == o.maxPrice
      && SetPrice(o, price, now).value.maxChangeBps == o.maxChangeBps
  {
    if o.price.Some? && o.price.value > 0 && o.maxChangeBps.Some? {
      ChangeWithinIff(o.price.value, price, o.maxChangeBps.value);
    }
  }

  lemma ChangeWithinIff(current: int, price: int, m: nat)
    requires current > 0
    ensures ChangeBps(current, price) <= m <==>
      (price - current) * 10_000 < (m + 1) * current && (current - price) * 10_000 < (m + 1) * current
  {
    var change := if price > current then price - current else current - price;
    DivBounds(change * 10_000, current);
    var q := change * 10_000 / current;
    if q <= m {
      MulMono(q + 1, m + 1, current);
    } else {
      MulMono(m + 1, q, current);
    }
    MulNonNeg(m + 1, current);
  }

  // ---------------------------------------------------------------- rails over every run

  datatype OracleStep =
    | UpdatePrice(price: int, now: nat)
    | UpdateBounds(min: int, max: int)
    | UpdateMaxChange(bps: nat)

  /** A rejected step reverts. */
  function Step(o: OracleRecord, e: OracleStep): OracleRecord {
    match e
    case UpdatePrice(price, now) => (match SetPrice(o, price, now) case Ok(r) => r case Err(_) => o)
    case UpdateBounds(min, max) => (match SetBounds(o, min, max) case Ok(r) => r case Err(_) => o)
    case UpdateMaxChange(bps) => o.(maxChangeBps := Some(bps))
  }

  function Run(o: OracleRecord, steps: seq<OracleStep>): OracleRecord {
    if |steps| == 0 then o else Step(Run(o, steps[..|steps| - 1]), steps[|steps| - 1])
  }

  predicate OnRails(o: OracleRecord) {
    && (o.price.Some? ==> o.price.value > 0 && o.lastUpdated.Some?)
    && (o.minPrice.Some? <==> o.maxPrice.Some?)
    && (o.minPrice.Some? ==> 0 < o.minPrice.value <= o.maxPrice.value)
    && (o.minPrice.Some? && o.price.Some? ==> o.minPrice.value <= o.price.value <= o.maxPrice.value)
  }

  /** In every reachable record the bounds are ordered and a stored price lies between them. */
  lemma {:induction false} AlwaysOnRails(steps: seq<OracleStep>)
    ensures OnRails(Run(NO_ORACLE, steps))
  {
    if |steps| > 0 {
      AlwaysOnRails(steps[..|steps| - 1]);
    }
  }

  // ---------------------------------------------------------------- compounded change

  function Pow(base: nat, n: nat): nat {
    if n == 0 then 1 else base * Pow(base, n - 1)
  }

  /** Price updates at given times, under an unchanged change limit. */
  function Updates(o: OracleRecord, prices: seq<(int, nat)>): OracleRecord {
    if |prices| == 0 then o
    else
      var last := prices[|prices| - 1];
      Step(Updates(o, prices[..|prices| - 1]), UpdatePrice(last.0, last.1))
  }

  /** One accepted update under limit `m` stays strictly within a factor of (10000 +- (m + 1)) / 10000. */
  lemma OneUpdate(current: int, price: int, m: nat)
    requires current > 0 && ChangeBps(current, price) <= m
    ensures price * 10_000 < current * (10_001 + m)
    ensures current * (9_999 - m) < price * 10_000
  {
    var change := if price > current then price - current else current - price;
    DivBounds(change * 10_000, current);
    MulMono(change * 10_000 / current + 1, m + 1, current);
    assert current * (10_001 + m) == current * 10_000 + (m + 1) * current;
    assert current * (9_999 - m) == current * 10_000 - (m + 1) * current;
  }

  lemma ChainUpper(p: nat, q: nat, r: nat, a: nat, b: nat, c: nat, m: nat)
    requires q * b <= p * a && r * c <= q * m
    ensures r * (c * b) <= p * (m * a)
  {
    MulMono(r * c, q * m, b);
    MulMono(q * b, p * a, m);
    assert (r * c) * b == r * (c * b) && (q * m) * b == (q * b) * m && (p * a) * m == p * (m * a);
  }

  /**
   * After n update attempts under a constant limit m > 0 the price has moved by at most the n-th power of
   * the one-step factor, in both directions; a rejected attempt counts as no movement.
   */
  lemma {:induction false} CompoundedChange(o: OracleRecord, prices: seq<(int, nat)>, m: nat)
    requires OnRails(o) && o.price.Some? && o.maxChangeBps == Some(m) && m > 0
    ensures var end := Updates(o, prices);
      var n := |prices|;
      && end.price.Some? && end.price.value > 0 && end.maxChangeBps == Some(m)
      && end.price.value * Pow(10_000, n) <= o.price.value * Pow(10_001 + m, n)
      && (m <= 9_999 ==> o.price.value * Pow(9_999 - m, n) <= end.price.value * Pow(10_000, n))
  {
    if |prices| > 0 {
      var n := |prices| - 1;
      CompoundedChange(o, prices[..n], m);
      var p, q, r := o.price.value, Updates(o, prices[..n]).price.value, Updates(o, prices).price.value;
      if q != r {
        OneUpdate(q, r, m);
      }
      assert r * 10_000 <= q * (10_001 + m);
      ChainUpper(p, q, r, Pow(10_001 + m, n), Pow(10_000, n), 10_000, 10_001 + m);
      if m <= 9_999 {
        assert q * (9_999 - m) <= r * 10_000;
        ChainUpper(r, q, p, 10_000, 9_999 - m, Pow(9_999 - m, n), Pow(10_000, n));
        assert (9_999 - m) * Pow(9_999 - m, n) == Pow(9_999 - m, n) * (9_999 - m);
        assert 10_000 * Pow(10_000, n) == Pow(10_000, n) * 10_000;
      }
    }
  }
}
