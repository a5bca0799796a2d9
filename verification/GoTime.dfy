/**
 Go's integers and times. Instants and durations are integers counting nanoseconds, instants from
 the Unix epoch.
 `time.Time.Unix` rounds towards minus infinity; Go's `/` truncates towards zero.
 */
module GoTime {

  const SECOND: int := 1_000_000_000
  const MINUTE: int := 60 * SECOND

  /** Go's integer division, for a positive divisor. */
  function TruncDiv(a: int, b: int): int
    requires b > 0
  {
    if a >= 0 then a / b else -((-a) / b)
  }

  /** `time.Time.Unix`: whole seconds, rounded down. */
  function Unix(t: int): int {
    t / SECOND
  }

  /** The index key of an instant, `Unix() / 60`. */
  function MinuteBucket(t: int): int {
    TruncDiv(Unix(t), 60)
  }

  /** Later instants never have smaller keys: the scan over keys covers the scan over instants. */
  lemma MinuteBucketMonotone(s: int, t: int)
    requires s <= t
    ensures MinuteBucket(s) <= MinuteBucket(t)
  {
    assert Unix(s) <= Unix(t);
  }

  /**
   Exactly which instants share a key: one minute each, except that key 0 spans the two minutes
   around the epoch.
   */
  lemma MinuteBucketSpan(t: int, b: int)
    ensures MinuteBucket(t) == b <==>
            (if b > 0 then b * MINUTE <= t < (b + 1) * MINUTE
             else if b < 0 then (b - 1) * MINUTE + SECOND <= t < b * MINUTE + SECOND
             else -MINUTE + SECOND <= t < MINUTE)
  {
  }

  const MAX_INT: int := 0x7fff_ffff_ffff_ffff
  const TWO_63: int := 0x8000_0000_0000_0000
  const TWO_64: int := 0x1_0000_0000_0000_0000

  /** The 64-bit two's complement value of a mathematical integer. */
  function Wrap64(x: int): (r: int)
    ensures -TWO_63 <= r <= MAX_INT
    ensures -TWO_63 <= x <= MAX_INT ==> r == x
  {
    (x + TWO_63) % TWO_64 - TWO_63
  }

  /** A sum that overflows once becomes negative. */
  lemma WrapsOnce(x: int)
    requires 0 <= x < TWO_64
    ensures Wrap64(x) == if x <= MAX_INT then x else x - TWO_64
  {
  }
}
