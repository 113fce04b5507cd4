/**
 * The arithmetic of splitting and scaling: the nominal chunk length
 * `ceil(duration / num_chunks)`, the manual split's seek offsets, and the
 * scaled width `int(height * aspect_ratio)`. Durations and aspect ratios are
 * exact numbers here, not floating point.
 */
module Schedule {

  /** `math.ceil(x)`: the least integer not below `x`. */
  function Ceil(x: real): (c: int)
    ensures c as real - 1.0 < x <= c as real
  {
    var f := x.Floor;
    if f as real == x then f else f + 1
  }

  /** `chunk_time = math.ceil(duration / num_chunks)`. */
  function ChunkTime(duration: real, numChunks: int): (c: int)
    requires numChunks != 0
    ensures c as real - 1.0 < duration / numChunks as real <= c as real
  {
    Ceil(duration / numChunks as real)
  }

  /** The seek offset `i * chunk_time` at which the manual split cuts chunk `i`. */
  function Offset(i: int, chunkTime: int): (o: int)
    ensures i >= 0 && chunkTime >= 0 ==> o >= 0
  {
    i * chunkTime
  }

  /** For a positive chunk time, the offset is a multiple of it from which the index is recovered. */
  lemma OffsetIndex(i: int, chunkTime: int)
    requires chunkTime > 0
    ensures Offset(i, chunkTime) % chunkTime == 0 && Offset(i, chunkTime) / chunkTime == i
  {
    var o, q, r := Offset(i, chunkTime), Offset(i, chunkTime) / chunkTime, Offset(i, chunkTime) % chunkTime;
    assert o == q * chunkTime + r && 0 <= r < chunkTime;
    if q < i {
      MulStep(q, i, chunkTime);
    } else if i < q {
      MulStep(i, q, chunkTime);
    }
  }

  /**
   * `num_chunks` chunks of the nominal length reach the end of the source,
   * and one second less per chunk would not.
   */
  lemma ChunkTimeBounds(duration: real, numChunks: int)
    requires numChunks >= 1
    ensures (numChunks * ChunkTime(duration, numChunks)) as real >= duration
    ensures ((numChunks * (ChunkTime(duration, numChunks) - 1)) as real) < duration
  {
    var n, ct := numChunks as real, ChunkTime(duration, numChunks);
    var q := duration / n;
    assert q * n == duration;
    assert ct as real - 1.0 < q <= ct as real;
    var lo, hi := (ct - 1) as real, ct as real;
    MulLt(lo, q, n);
    MulLe(q, hi, n);
    RealOfProduct(numChunks, ct);
    RealOfProduct(numChunks, ct - 1);
    assert n * lo == lo * n && n * hi == hi * n;
    assert (numChunks * (ct - 1)) as real == n * lo;
    assert lo * n < duration;
  }

  /** A non-empty source has a chunk length of at least one second; an empty one, of zero. */
  lemma ChunkTimeSign(duration: real, numChunks: int)
    requires numChunks >= 1 && duration >= 0.0
    ensures duration > 0.0 ==> ChunkTime(duration, numChunks) >= 1
    ensures duration == 0.0 ==> ChunkTime(duration, numChunks) == 0
  {
    var q := duration / numChunks as real;
    assert duration > 0.0 ==> q > 0.0;
    assert duration == 0.0 ==> q == 0.0;
  }

  lemma MulStep(i: int, j: int, c: int)
    requires i < j && c >= 1
    ensures i * c + c <= j * c
  {
    var k := j - i - 1;
    assert k >= 0;
    assert j * c == i * c + c + k * c;
    assert k * c >= 0;
  }

  /**
   * For a non-empty source the seek offsets strictly increase, and a chunk
   * ends no later than the next one starts.
   */
  lemma OffsetsIncrease(duration: real, numChunks: int, i: int, j: int)
    requires numChunks >= 1 && duration > 0.0 && i < j
    ensures Offset(i, ChunkTime(duration, numChunks)) < Offset(j, ChunkTime(duration, numChunks))
    ensures Offset(i + 1, ChunkTime(duration, numChunks)) <= Offset(j, ChunkTime(duration, numChunks))
  {
    var ct := ChunkTime(duration, numChunks);
    ChunkTimeSign(duration, numChunks);
    MulStep(i, j, ct);
    assert (i + 1) * ct == i * ct + ct;
  }

  lemma MulLe(a: real, b: real, c: real)
    requires a <= b && c > 0.0
    ensures a * c <= b * c
  {}

  lemma MulLt(a: real, b: real, c: real)
    requires a < b && c > 0.0
    ensures a * c < b * c
  {}

  lemma RealOfProduct(a: int, b: int)
    ensures (a * b) as real == a as real * b as real
  {}

  /** An integer bracket `lo * b <= a < (lo + 1) * b` brackets the exact quotient the same way. */
  lemma QuotientBetween(lo: int, a: int, b: int)
    requires b > 0
    requires lo * b <= a < (lo + 1) * b
    ensures lo as real <= a as real / b as real < lo as real + 1.0
  {
    var q := a as real / b as real;
    assert q * b as real == a as real;
    RealOfProduct(lo, b);
    RealOfProduct(lo + 1, b);
    if q < lo as real { MulLt(q, lo as real, b as real); }
    if q >= lo as real + 1.0 { MulLe(lo as real + 1.0, q, b as real); }
  }

  /** The chunk holding instant `x`, for chunks of positive length `c`: the whole number of chunk lengths before `x`. */
  lemma IndexOfInstant(x: real, c: real) returns (i: int)
    requires x >= 0.0 && c > 0.0
    ensures 0 <= i && i as real * c <= x < (i as real + 1.0) * c
  {
    var q := x / c;
    i := q.Floor;
    var next := i as real + 1.0;
    assert i as real <= q < next;
    assert q * c == x;
    MulLe(i as real, q, c);
    MulLt(q, next, c);
    assert x < next * c;
  }

  /** Every instant of the source lies in the interval `[i * chunk_time, (i + 1) * chunk_time)` of some chunk `i < num_chunks`. */
  lemma ScheduleCovers(duration: real, numChunks: int, x: real)
    requires numChunks >= 1 && 0.0 <= x < duration
    ensures exists i :: (0 <= i < numChunks &&
      Offset(i, ChunkTime(duration, numChunks)) as real <= x < Offset(i + 1, ChunkTime(duration, numChunks)) as real)
  {
    var ct := ChunkTime(duration, numChunks);
    ChunkTimeSign(duration, numChunks);
    var c := ct as real;
    var i := IndexOfInstant(x, c);
    IndexBelowCount(duration, numChunks, x, i);
    RealOfProduct(i, ct);
    RealOfProduct(i + 1, ct);
    assert (i + 1) as real * c == (i as real + 1.0) * c;
    assert 0 <= i < numChunks && Offset(i, ct) as real <= x < Offset(i + 1, ct) as real;
  }

  /** The chunk whose interval `[i * chunk_time, i * chunk_time + chunk_time)` holds instant `x`. */
  lemma ChunkOfInstant(duration: real, numChunks: int, x: real) returns (i: int)
    requires numChunks >= 1 && 0.0 <= x < duration
    ensures 0 <= i < numChunks
    ensures Offset(i, ChunkTime(duration, numChunks)) as real <= x
    ensures x < (Offset(i, ChunkTime(duration, numChunks)) + ChunkTime(duration, numChunks)) as real
  {
    var ct := ChunkTime(duration, numChunks);
    ChunkTimeSign(duration, numChunks);
    var c := ct as real;
    i := IndexOfInstant(x, c);
    IndexBelowCount(duration, numChunks, x, i);
    RealOfProduct(i, ct);
    assert (i as real + 1.0) * c == i as real * c + c;
  }

  /** An instant before the end lies before chunk `num_chunks`, so its chunk index is below `num_chunks`. */
  lemma IndexBelowCount(duration: real, numChunks: int, x: real, i: int)
    requires numChunks >= 1 && 0.0 <= x < duration
    requires i as real * ChunkTime(duration, numChunks) as real <= x
    ensures i < numChunks
  {
    var ct := ChunkTime(duration, numChunks);
    ChunkTimeSign(duration, numChunks);
    ChunkTimeBounds(duration, numChunks);
    RealOfProduct(numChunks, ct);
    assert duration <= numChunks as real * ct as real;
    if i >= numChunks {
      MulLe(numChunks as real, i as real, ct as real);
      assert false;
    }
  }

  /**
   * The nominal length is rounded up, so the later offsets can reach the end
   * of the source: 10 seconds in 6 chunks gives chunks of 2 seconds, and the
   * last one is cut at second 10, where the source ends.
   */
  lemma LastChunkCanStartAtEnd()
    ensures ChunkTime(10.0, 6) == 2
    ensures Offset(5, ChunkTime(10.0, 6)) as real == 10.0
  {
    assert 10.0 / 6 as real == 5.0 / 3.0;
    assert (5.0 / 3.0).Floor == 1;
  }

  type Positive = x: int | x > 0 witness 1

  /** An aspect ratio as the exact fraction `num / den`. */
  datatype Ratio = Ratio(num: int, den: Positive)

  /** Integer division rounding toward zero, as `int()` does to a quotient. */
  function TruncDiv(a: int, b: Positive): (q: int)
    ensures a >= 0 ==> 0 <= q && q * b <= a < q * b + b
    ensures a < 0 ==> q <= 0 && -a - b < -q * b <= -a
  {
    if a >= 0 then a / b else -((-a) / b)
  }

  /** Rounding toward zero leaves the result within one of the exact quotient, on the side of zero. */
  lemma TruncDivNearQuotient(a: int, b: Positive)
    ensures a >= 0 ==> TruncDiv(a, b) as real <= a as real / b as real < TruncDiv(a, b) as real + 1.0
    ensures a < 0 ==> TruncDiv(a, b) as real - 1.0 < a as real / b as real <= TruncDiv(a, b) as real
  {
    var q := TruncDiv(a, b);
    if a >= 0 {
      QuotientBetween(q, a, b);
    } else {
      QuotientBetween(-q, -a, b);
      assert (-a) as real / b as real == -(a as real / b as real);
    }
  }

  /**
   * `width = int(height * aspect_ratio)`: the exact product rounded toward
   * zero, so it lies within one of the product, on the side of zero.
   */
  function Width(height: int, ratio: Ratio): (w: int)
    ensures var exact := (height * ratio.num) as real / ratio.den as real;
      && (exact >= 0.0 ==> w as real <= exact < w as real + 1.0)
      && (exact < 0.0 ==> w as real - 1.0 < exact <= w as real)
  {
    TruncDivNearQuotient(height * ratio.num, ratio.den);
    TruncDiv(height * ratio.num, ratio.den)
  }
}
