/** Amounts rounded to paise, ties to the even one, as the source's `round(x, 2)`. */
module Money {
  function Nearest(y: real): int {
    var below := y.Floor;
    var rest := y - below as real;
    if rest < 0.5 || (rest == 0.5 && below % 2 == 0) then below else below + 1
  }

  /** The whole number nearest to y, and of two the even one. */
  lemma NearestIsEven(y: real)
    ensures -0.5 <= Nearest(y) as real - y <= 0.5
    ensures Nearest(y) as real - y == 0.5 || Nearest(y) as real - y == -0.5 ==> Nearest(y) % 2 == 0
  {
    var below := y.Floor;
    if y - below as real == 0.5 && below % 2 != 0 { assert (below + 1) % 2 == 0; }
  }

  function Paise(x: real): int { Nearest(x * 100.0) }

  function FromPaise(paise: int): real { paise as real / 100.0 }

  /** Rounding to paise. */
  function Cents(x: real): real { FromPaise(Paise(x)) }

  lemma WholePaise(n: int)
    ensures Paise(FromPaise(n)) == n
  {
    var y := n as real;
    assert FromPaise(n) * 100.0 == y;
    assert y.Floor == n;
  }

  lemma CentsAgain(x: real)
    ensures Cents(Cents(x)) == Cents(x)
  {
    WholePaise(Paise(x));
  }

  lemma NearestKeepsOrder(x: real, y: real)
    requires x <= y
    ensures Nearest(x) <= Nearest(y)
  {
  }

  /** Rounding keeps the order, and moves an amount by at most half a paisa. */
  lemma CentsKeepOrder(x: real, y: real)
    requires x <= y
    ensures Cents(x) <= Cents(y)
    ensures -0.005 <= Cents(x) - x <= 0.005
  {
    NearestKeepsOrder(x * 100.0, y * 100.0);
  }
}
