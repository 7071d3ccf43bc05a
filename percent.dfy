// Percentage change between two readings, with the guard for a zero
// baseline (utils.py, calculate_percentage_change).

module PercentChange {

  /** `(current - previous) / previous * 100`, except that a zero baseline
      gives 100 when the new reading is positive and 0 otherwise. */
  function PercentageChange(current: real, previous: real): (r: real)
    ensures previous == 0.0 ==> (r == 100.0 <==> current > 0.0)
    ensures previous == 0.0 && current <= 0.0 ==> r == 0.0
    ensures previous != 0.0 ==> r * previous == (current - previous) * 100.0
  {
    if previous == 0.0 then
      (if current > 0.0 then 100.0 else 0.0)
    else
      Ratio(current - previous, previous) * 100.0
  }

  /** Division kept in a function of its own, with its defining fact. */
  function Ratio(a: real, b: real): (q: real)
    requires b != 0.0
    ensures q * b == a
  {
    a / b
  }

  /** No change gives 0, whatever the baseline. */
  lemma NoChange(x: real)
    ensures PercentageChange(x, x) == 0.0
  {
    if x != 0.0 {
      var r := PercentageChange(x, x);
      assert r * x == 0.0;
    }
  }

  /** For a positive baseline the change is positive exactly when the
      reading went up, negative exactly when it went down. */
  lemma SignFollowsDirection(current: real, previous: real)
    requires previous > 0.0
    ensures PercentageChange(current, previous) > 0.0 <==> current > previous
    ensures PercentageChange(current, previous) < 0.0 <==> current < previous
  {
    var r := PercentageChange(current, previous);
    assert r * previous == (current - previous) * 100.0;
    if r > 0.0 {
      assert r * previous > 0.0;
    } else if r < 0.0 {
      assert r * previous < 0.0;
    } else {
      assert r * previous == 0.0;
    }
  }

  /** Doubling a positive (or negative) baseline is a change of 100 percent. */
  lemma DoublingIsHundred(previous: real)
    requires previous != 0.0
    ensures PercentageChange(2.0 * previous, previous) == 100.0
  {
    var r := PercentageChange(2.0 * previous, previous);
    assert r * previous == previous * 100.0;
    assert (r - 100.0) * previous == 0.0;
  }
}
