/** The parts of the platform's `Math` object that the explorer uses and that
    cannot be computed exactly: square root, power, sine, natural logarithm
    and pi. They are passed around as one record of functions, and `Lawful`
    states the few facts about them that the proofs rely on -- each one true
    of the real functions. Numbers are exact reals; `floor` is Dafny's own
    `.Floor`, and `Math.min`/`Math.max` are written out below. */
module Numerics {

  datatype Math = Math(
    sqrt: real -> real,
    pow: (real, real) -> real,
    sin: real -> real,
    log: real -> real,
    pi: real)

  /** Facts about the real square root, power, sine and logarithm. */
  ghost predicate Lawful(m: Math) {
    && (forall x :: 0.0 <= x <= 1.0 ==> 0.0 <= m.sqrt(x) <= 1.0)
    && (forall x, p :: 0.0 <= x <= 1.0 && 0.0 < p ==> 0.0 <= m.pow(x, p) <= 1.0)
    && m.pi > 0.0
    && (forall x :: 0.0 <= x <= m.pi ==> 0.0 <= m.sin(x) <= 1.0)
    && (forall x :: x > 1.0 ==> m.log(x) > 0.0)
    && (forall x :: x > 4.0 ==> m.log(x) > m.log(4.0))
    && m.log(4.0) == 2.0 * m.log(2.0)
    && m.log(1.0) == 0.0
  }

  lemma LogTwoPositive(m: Math)
    requires Lawful(m)
    ensures m.log(2.0) > 0.0
  {
    assert 2.0 > 1.0;
  }

  function Min(a: real, b: real): real { if a <= b then a else b }

  function Max(a: real, b: real): real { if a >= b then a else b }
}
