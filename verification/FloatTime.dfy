/** Times kept in JSON as float64 seconds, with each operation rounded as IEEE 754-2019 allows. */
module FloatTime {
  import opened Wormhole

  /** Half a unit in the last place of a 53-bit significand, relative to the value. */
  const EPSILON: real := 1.0 / 9007199254740992.0

  const MAX_SECONDS: int := 0x2_0000_0000

  /** A correctly rounded float64 result of an operation with the given exact value (section 4.3.1). */
  predicate Rounds(exact: real, rounded: real) {
    && rounded - exact <= EPSILON * (if exact < 0.0 then -exact else exact)
    && exact - rounded <= EPSILON * (if exact < 0.0 then -exact else exact)
  }

  /**
   * MarshalJSON: float64(Unix()) + float64(Nanosecond())/1e9. Both conversions are exact, since
   * the integers fit the significand; the quotient and the sum are rounded.
   */
  ghost predicate Marshals(t: int, timestamp: real) {
    exists quotient :: MarshalsVia(t, quotient, timestamp)
  }

  predicate MarshalsVia(t: int, quotient: real, timestamp: real) {
    && Rounds((t % SECOND) as real / 1000000000.0, quotient)
    && Rounds((t / SECOND) as real + quotient, timestamp)
  }

  /** UnmarshalJSON: the truncated seconds, and the truncated nanoseconds of the rest. */
  ghost predicate Unmarshals(timestamp: real, t: int) {
    exists fraction, nanos :: UnmarshalsVia(timestamp, fraction, nanos, t)
  }

  predicate UnmarshalsVia(timestamp: real, fraction: real, nanos: real, t: int) {
    && Rounds(timestamp - Trunc(timestamp) as real, fraction)
    && Rounds(fraction * 1000000000.0, nanos)
    && t == Trunc(timestamp) * SECOND + Trunc(nanos)
  }

  /** Conversion of a float64 to int64 truncates toward zero. */
  function Trunc(x: real): int {
    if x >= 0.0 then x.Floor else -((-x).Floor)
  }

  /** The decimal text between the two is exact. */
  ghost predicate RoundTrips(t: int, t': int) {
    exists timestamp: real :: Marshals(t, timestamp) && Unmarshals(timestamp, t')
  }

  /** The marshalled value is off by less than 954 nanoseconds. */
  lemma MarshalError(t: int, timestamp: real)
    requires 0 <= t < MAX_SECONDS * SECOND
    requires Marshals(t, timestamp)
    ensures -954.0 < timestamp * 1000000000.0 - t as real < 954.0
    ensures timestamp >= 0.0
  {
    var s, n := (t / SECOND) as real, (t % SECOND) as real;
    assert t as real == s * 1000000000.0 + n;
    var quotient :| MarshalsVia(t, quotient, timestamp);
    var exact := n / 1000000000.0;
    assert 0.0 <= exact < 1.0;
    assert -EPSILON <= quotient - exact <= EPSILON;
    var sum := s + quotient;
    assert exact >= 0.0 && EPSILON * exact <= exact;
    assert 0.0 <= sum <= 8589934592.0;
    assert -EPSILON * 8589934592.0 <= timestamp - sum <= EPSILON * 8589934592.0;
    assert EPSILON * sum <= sum;
  }

  /** Reading back loses less than 2 nanoseconds more. */
  lemma UnmarshalError(timestamp: real, t: int)
    requires timestamp >= 0.0
    requires Unmarshals(timestamp, t)
    ensures -2.0 < t as real - timestamp * 1000000000.0 < 2.0
  {
    var fraction, nanos :| UnmarshalsVia(timestamp, fraction, nanos, t);
    var exact := timestamp - Trunc(timestamp) as real;
    assert 0.0 <= exact < 1.0;
    assert EPSILON * exact <= exact;
    assert -EPSILON <= fraction - exact <= EPSILON;
    var scaled := fraction * 1000000000.0;
    assert 0.0 <= scaled <= 1000000001.0;
    assert EPSILON * scaled <= scaled;
    assert -EPSILON * 1000000001.0 <= nanos - scaled <= EPSILON * 1000000001.0;
    assert nanos - 1.0 < Trunc(nanos) as real <= nanos;
    assert t as real == Trunc(timestamp) as real * 1000000000.0 + Trunc(nanos) as real;
  }

  /** Storing an expiry and reading it back moves it by less than a microsecond. */
  lemma RoundTripBound(t: int, t': int)
    requires 0 <= t < MAX_SECONDS * SECOND
    requires RoundTrips(t, t')
    ensures -1000 < t' - t < 1000
  {
    var timestamp: real :| Marshals(t, timestamp) && Unmarshals(timestamp, t');
    MarshalError(t, timestamp);
    UnmarshalError(timestamp, t');
  }
}
