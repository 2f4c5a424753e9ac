/** Python 2 integer arithmetic as the pitch tracker uses it: `/` on two ints
    floors, `int()` on a float truncates toward zero. Dafny's own `/` on `int`
    is Euclidean, so both are written out here. */
module PyNumeric {

  function Abs(a: int): (r: nat)
  {
    if a < 0 then -a else a
  }

  /** Python 2 `a / b` on two ints: the floor of the exact quotient. */
  function FloorDiv(a: int, b: int): (q: int)
    requires b != 0
    ensures b > 0 ==> q * b <= a < q * b + b
    ensures b < 0 ==> q * b >= a > q * b + b
  {
    if b > 0 then a / b else (-a) / (-b)
  }

  /** `int(x)` on a float: drops the fractional part, rounding toward zero. */
  function Trunc(x: real): (t: int)
    ensures 0.0 <= x ==> t as real <= x < t as real + 1.0
    ensures x < 0.0 ==> t as real - 1.0 < x <= t as real
  {
    if x >= 0.0 then x.Floor else -((-x).Floor)
  }

  /** `int(float(a) / float(b))`: the exact quotient truncated toward zero. */
  function TruncDiv(a: int, b: int): (q: int)
    requires b != 0
    ensures q == Trunc(a as real / b as real)
    ensures Abs(q) == Abs(a) / Abs(b)
    ensures q != 0 ==> ((q > 0) <==> ((a > 0) == (b > 0)))
  {
    var m := Abs(a) / Abs(b);
    TruncOfQuotient(a, b);
    if (a < 0) != (b < 0) then -m else m
  }

  /** The floor of the exact quotient of two naturals is their integer quotient. */
  lemma FloorOfQuotient(a: nat, b: nat)
    requires 0 < b
    ensures (a as real / b as real).Floor == a / b
  {
    var y := a as real / b as real;
    var m := a / b;
    QuotientBounds(a, b);
    assert y * b as real == a as real;
    assert (m as real) * (b as real) <= y * (b as real);
    assert y * (b as real) < ((m + 1) as real) * (b as real);
    assert m as real <= y;
    assert y < (m + 1) as real;
  }

  /** Truncating the exact quotient a / b gives abs(a) div abs(b), negated
      when the signs of a and b differ. */
  lemma TruncOfQuotient(a: int, b: int)
    requires b != 0
    ensures Trunc(a as real / b as real) ==
            if (a < 0) != (b < 0) then -(Abs(a) / Abs(b)) else Abs(a) / Abs(b)
  {
    var y := Abs(a) as real / Abs(b) as real;
    FloorOfQuotient(Abs(a), Abs(b));
    assert 0.0 <= y;
    if (a < 0) != (b < 0) {
      assert a as real / b as real == -y;
      if y == 0.0 {
        assert Abs(a) == 0;
      }
    } else {
      assert a as real / b as real == y;
    }
  }

  lemma QuotientBounds(a: nat, b: nat)
    requires 0 < b
    ensures (a / b) * b <= a < (a / b + 1) * b
  {
    assert (a / b) * b + a % b == a;
    assert (a / b + 1) * b == (a / b) * b + b;
  }

  /** For a non-negative dividend and a positive divisor both divisions are
      Dafny's own. */
  lemma {:induction false} DivisionsAgreeOnNaturals(a: int, b: int)
    requires 0 <= a && 0 < b
    ensures FloorDiv(a, b) == a / b
    ensures TruncDiv(a, b) == a / b
  {
  }
}
