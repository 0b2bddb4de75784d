/**
 * The parameter rules of the x265 encoder plugin: each one is a single
 * expression whose value the adapter stores into a field of the encoder's
 * parameter record (src/heif_encoder_x265.cc, lines 119-177).
 */
module X265Params {

  /** C `int` on the platforms libheif targets. */
  type int32 = x: int | -0x8000_0000 <= x < 0x8000_0000

  const INT32_MAX: int := 0x7fff_ffff

  /** x265's logging levels: NONE is -1, ERROR is 0, ..., FULL is 4. */
  const X265_LOG_NONE: int := -1
  const X265_LOG_ERROR: int := 0
  const X265_LOG_FULL: int := 4

  /** How far apart two integers are. */
  function Distance(a: int, b: int): nat { if a < b then b - a else a - b }

  /**
   * C++ integer division by 2: the quotient is truncated toward zero, so
   * for a negative numerator it differs from Dafny's Euclidean `/`.
   */
  function TruncHalf(n: int): (q: int)
    ensures n >= 0 ==> 0 <= 2 * q <= n < 2 * q + 2
    ensures n < 0 ==> 2 * q - 2 < n <= 2 * q <= 0
  {
    if n >= 0 then n / 2 else -((-n) / 2)
  }

  /** Where the two divisions part: C++ gives 0 for -1 / 2, Euclidean division -1. */
  lemma TruncHalfDiffersFromEuclidean()
    ensures TruncHalf(-1) == 0 && -1 / 2 == -1
  {
  }

  /**
   * x265_set_param_quality: the constant rate factor for a quality.  The
   * requires clause excludes the arguments for which `100 - quality`
   * overflows a C int (undefined behaviour in C++).
   */
  function QualityToCrf(quality: int32): (crf: int32)
    requires quality >= 100 - INT32_MAX
    ensures 0 <= quality <= 100 ==> 0 <= crf <= 50
    ensures quality <= 100 ==> 2 * crf <= 100 - quality < 2 * crf + 2
    ensures quality > 100 ==> 2 * crf - 2 < 100 - quality <= 2 * crf <= 0
  {
    TruncHalf(100 - quality)
  }

  /** The three values the source documents next to the formula. */
  lemma QualityDocumentedPoints()
    ensures QualityToCrf(0) == 50 && QualityToCrf(50) == 25 && QualityToCrf(100) == 0
  {
  }

  /** A higher quality never gives a higher rate factor. */
  lemma QualityToCrfNonIncreasing(q1: int32, q2: int32)
    requires 100 - INT32_MAX <= q1 <= q2
    ensures QualityToCrf(q2) <= QualityToCrf(q1)
  {
  }

  /** The lowest quality accepted: `100 - quality` is exactly INT32_MAX. */
  lemma QualityLowestAccepted()
    ensures QualityToCrf(100 - INT32_MAX) == 1073741823
  {
  }

  /** Above 100 the rate factor turns negative; truncation toward zero still maps 101 to 0. */
  lemma QualityJustAboveRange()
    ensures QualityToCrf(101) == 0 && QualityToCrf(102) == -1
  {
  }

  /** x265_set_param_logging_level: the two successive clamps. */
  function ClampLogLevel(logging: int32): (level: int32)
    ensures X265_LOG_ERROR <= level <= X265_LOG_FULL
    ensures X265_LOG_ERROR <= logging <= X265_LOG_FULL ==> level == logging
    ensures forall v :: X265_LOG_ERROR <= v <= X265_LOG_FULL ==> Distance(level, logging) <= Distance(v, logging)
  {
    var l := if logging < X265_LOG_ERROR then X265_LOG_ERROR else logging;
    if l > X265_LOG_FULL then X265_LOG_FULL else l
  }

  /** Clamping a stored level again leaves it as it is. */
  lemma ClampLogLevelIdempotent(logging: int32)
    ensures ClampLogLevel(ClampLogLevel(logging)) == ClampLogLevel(logging)
  {
  }

  /** The clamp preserves the order of its arguments. */
  lemma ClampLogLevelMonotone(a: int32, b: int32)
    requires a <= b
    ensures ClampLogLevel(a) <= ClampLogLevel(b)
  {
  }

  /**
   * `w & ~1` on a two's-complement int: clearing bit 0 subtracts the value
   * of that bit, which is the Euclidean remainder `w % 2` for every sign
   * of `w`.
   */
  function ClearLowestBit(w: int32): (r: int32)
    ensures r % 2 == 0
    ensures w - 1 <= r <= w
    ensures w >= 0 ==> r >= 0
  {
    w - w % 2
  }
}
