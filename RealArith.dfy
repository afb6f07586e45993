/** Small facts about real multiplication and division that the solver needs spelled out. */
module RealArith {

  lemma PercentageBack(p: real, b: real)
    requires b != 0.0
    ensures ((p / b) * 100.0) * b == p * 100.0
  {
    var d := p / b;
    assert d * b == p;
  }

  lemma Distrib(l: real, a: real, q: real)
    ensures l * q - a * q == (l - a) * q
  {
  }

  lemma MulCancel(x: real, y: real, b: real)
    requires b != 0.0 && x * b == y * b
    ensures x == y
  {
    assert (x - y) * b == 0.0;
  }
}
