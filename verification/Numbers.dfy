/** What the source takes from Python's `abs`, `max` and `min`, and the comparison of quotients. */
module Numbers {

  function Abs(x: real): real {
    if x < 0.0 then -x else x
  }

  function Max(a: real, b: real): real {
    if a < b then b else a
  }

  function Min(a: int, b: int): int {
    if b < a then b else a
  }

  /** A quotient can be compared without dividing. */
  lemma QuotientAtLeast(x: real, y: real, factor: real)
    requires y > 0.0
    ensures x / y >= factor <==> x >= factor * y
  {
    var q := x / y;
    assert q * y == x;
    assert (q - factor) * y == x - factor * y;
    if q >= factor {
      assert (q - factor) * y >= 0.0;
    } else {
      assert (factor - q) * y > 0.0;
    }
  }
}
