/** Shared vocabulary of the two calculators: optional values, the
    reject-or-compute result, the `{ valid, errors }` record every validator
    returns, and the one-decimal rounding both calculators apply. */
module Common {

  /** An optional value: a TypeScript `?` field or an omitted argument. */
  datatype Option<T> = None | Some(value: T)

  /** The value, or `fallback` when it is absent: the source's
      `x !== undefined ? x : fallback`. With a fallback of 0 it is also
      `x || 0` on a number, since a present 0 gives 0 either way. */
  function ValueOr<T>(o: Option<T>, fallback: T): T {
    if o.Some? then o.value else fallback
  }

  /** Either a computed value or the reason the computation refused to run
      (the source throws an `Error` in that case). */
  datatype Result<+R, +E> = Success(value: R) | Failure(error: E)

  /** What a validator returns: the list of every violation found.
      The source's `valid` flag is exactly "the list is empty". */
  datatype Validation<+E> = Validation(errors: seq<E>) {

    predicate Valid() {
      |errors| == 0
    }
  }

  /** `Math.round(x * 10) / 10` on exact reals: round half up to one decimal. */
  function Round1(x: real): (r: real)
    ensures x - 1.0 / 20.0 < r <= x + 1.0 / 20.0
    ensures (10.0 * r).Floor as real == 10.0 * r
  {
    (10.0 * x + 0.5).Floor as real / 10.0
  }

  /** A larger input never rounds to a smaller value. */
  lemma Round1Monotone(x: real, y: real)
    requires x <= y
    ensures Round1(x) <= Round1(y)
  {
    var fx, fy := (10.0 * x + 0.5).Floor, (10.0 * y + 0.5).Floor;
    assert fx as real <= 10.0 * y + 0.5;
    assert fx <= fy;
  }

  /** A value that already has one decimal is left unchanged. */
  lemma Round1Tenths(k: int)
    ensures Round1(k as real / 10.0) == k as real / 10.0
  {
    var x := k as real / 10.0;
    assert 10.0 * x == k as real;
    var f := (10.0 * x + 0.5).Floor;
    assert f as real <= k as real + 0.5 < f as real + 1.0;
    assert f == k;
  }

  /** Rounding keeps a value inside any interval whose ends have one decimal. */
  lemma Round1Between(x: real, lo: int, hi: int)
    requires lo as real / 10.0 <= x <= hi as real / 10.0
    ensures lo as real / 10.0 <= Round1(x) <= hi as real / 10.0
  {
    Round1Monotone(lo as real / 10.0, x);
    Round1Monotone(x, hi as real / 10.0);
    Round1Tenths(lo);
    Round1Tenths(hi);
  }
}
