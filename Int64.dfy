/**
  Java's 64-bit `long` arithmetic. `System.nanoTime()` readings and the demand count of
  `request(long n)` are `long`s, and the elapsed time `System.nanoTime() - start` is a
  `long` subtraction that wraps around modulo 2^64.
 */
module Int64 {

  const TWO_63: int := 0x8000_0000_0000_0000
  const TWO_64: int := 0x1_0000_0000_0000_0000

  /** A Java `long`. */
  type Long = x: int | -TWO_63 <= x < TWO_63

  /** The two's-complement truncation Java applies to the exact result of a `long` operation. */
  function Wrap(x: int): (r: Long)
    ensures -TWO_63 <= x < TWO_63 ==> r == x
    ensures (x - r) % TWO_64 == 0
  {
    (x + TWO_63) % TWO_64 - TWO_63
  }

  /** Java's `a + b` on `long`s. */
  function Add(a: Long, b: int): Long {
    Wrap(a + b)
  }

  /** Java's `a - b` on `long`s. */
  function Sub(a: Long, b: Long): Long {
    Wrap(a - b)
  }

  /** Two `long`s that agree modulo 2^64 are equal. */
  lemma CongruentLongsEqual(r1: Long, r2: Long)
    requires (r1 - r2) % TWO_64 == 0
    ensures r1 == r2
  {
    var d := r1 - r2;
    assert -TWO_64 < d < TWO_64;
    assert d == TWO_64 * (d / TWO_64);
  }

  /**
    The elapsed time survives wrap-around: if the clock moved on by `e` nanoseconds, with
    `e` less than 2^63, the wrapped difference of the two readings is exactly `e`, even when
    the second reading has wrapped past the largest `long`.
   */
  lemma ElapsedRecovered(start: Long, e: int)
    requires 0 <= e < TWO_63
    ensures Sub(Add(start, e), start) == e
  {
    var later := Add(start, e);
    var d := Sub(later, start);
    // start + e - later and later - start - d are both multiples of 2^64, so is e - d
    var k1 := (start + e - later) / TWO_64;
    var k2 := (later - start - d) / TWO_64;
    assert start + e - later == TWO_64 * k1;
    assert later - start - d == TWO_64 * k2;
    assert e - d == TWO_64 * (k1 + k2);
    assert (e - d) % TWO_64 == 0;
    CongruentLongsEqual(e, d);
  }
}
