/** Python 3's `round(x)`: the nearest integer, and the even one of the two on a tie. */
module Rounding {

  ghost predicate IsRounded(x: real, r: int) {
    && -0.5 <= x - r as real <= 0.5
    && (x - r as real == 0.5 || x - r as real == -0.5 ==> r % 2 == 0)
  }

  function Round(x: real): (r: int)
    ensures IsRounded(x, r)
  {
    var below := x.Floor;
    var excess := x - below as real;
    if excess < 0.5 then below
    else if excess > 0.5 then below + 1
    else if below % 2 == 0 then below
    else below + 1
  }

  /** The specification leaves no choice, so `Round` is the function it describes. */
  lemma RoundedIsUnique(x: real, r: int, s: int)
    requires IsRounded(x, r) && IsRounded(x, s)
    ensures r == s
  {
    assert -1.0 <= r as real - s as real <= 1.0;
    assert -1 <= r - s <= 1;
  }

  /** Rounding never crosses an integer bound. */
  lemma RoundStaysBetween(x: real, lo: int, hi: int)
    requires lo as real <= x <= hi as real
    ensures lo <= Round(x) <= hi
  {
    var r := Round(x);
    if r < lo {
      RoundedIsUnique(x, r, lo);
    }
    if r > hi {
      RoundedIsUnique(x, r, hi);
    }
  }
}
