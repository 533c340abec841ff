/** Exact powers of a real base by a natural exponent, standing in for
    Python's `factor ** exponent` with a positive integer exponent. */
module Power {

  function Pow(b: real, n: nat): real
  {
    if n == 0 then 1.0 else b * Pow(b, n - 1)
  }

  /** A positive base gives a positive power. */
  lemma {:induction false} PowPositive(b: real, n: nat)
    requires 0.0 < b
    ensures 0.0 < Pow(b, n)
  {
    if n > 0 {
      PowPositive(b, n - 1);
    }
  }

  /** A base strictly between 0 and 1 raised to a positive exponent stays
      strictly between 0 and 1. */
  lemma {:induction false} PowBelowOne(b: real, n: nat)
    requires 0.0 < b < 1.0
    requires 0 < n
    ensures 0.0 < Pow(b, n) < 1.0
  {
    if n > 1 {
      PowBelowOne(b, n - 1);
      var q := Pow(b, n - 1);
      assert b * q < q;
    }
  }

  /** A base above 1 raised to a positive exponent is above 1. */
  lemma {:induction false} PowAboveOne(b: real, n: nat)
    requires 1.0 < b
    requires 0 < n
    ensures 1.0 < Pow(b, n)
  {
    if n > 1 {
      PowAboveOne(b, n - 1);
      var q := Pow(b, n - 1);
      assert q < b * q;
    }
  }

  /** Scaling a positive amount by a factor below 1 strictly shrinks it. */
  lemma ScaleDown(b: real, q: real)
    requires 0.0 < b < 1.0
    requires 0.0 < q
    ensures b * q < q
  {
  }

  /** For a base in (0, 1) a larger exponent gives a smaller power. */
  lemma {:induction false} PowAntitone(b: real, m: nat, n: nat)
    requires 0.0 < b < 1.0
    requires m <= n
    ensures Pow(b, n) <= Pow(b, m)
  {
    if m < n {
      var q := Pow(b, n - 1);
      PowAntitone(b, m, n - 1);
      PowPositive(b, n - 1);
      ScaleDown(b, q);
      calc {
        Pow(b, n);
      ==
        b * q;
      <
        q;
      <=
        Pow(b, m);
      }
    }
  }

  /** For a base of at least 1 a larger exponent gives a larger power. */
  lemma {:induction false} PowMonotone(b: real, m: nat, n: nat)
    requires 1.0 <= b
    requires m <= n
    ensures Pow(b, m) <= Pow(b, n)
  {
    if m < n {
      PowMonotone(b, m, n - 1);
      PowMonotone(b, 0, n - 1);
      var q := Pow(b, n - 1);
      assert q <= b * q;
    }
  }
}
