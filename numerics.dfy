/** The integer arithmetic of C# that differs from Dafny's, and the 16-bit
    identifiers used by the entity registry and the network messages. */
module Numerics {

  /** `ushort`: entity identifiers and message fields are 16-bit unsigned. */
  newtype U16 = x: int | 0 <= x < 0x1_0000

  function Abs(x: int): (r: nat)
    ensures r == x || r == -x
  {
    if x < 0 then -x else x
  }

  /** `Math.Sign`: -1, 0 or 1 according to the sign of its argument. */
  function Sign(x: int): (s: int)
    ensures -1 <= s <= 1
    ensures s == 1 <==> x > 0
    ensures s == -1 <==> x < 0
  {
    if x > 0 then 1 else if x < 0 then -1 else 0
  }

  /** C#'s `/` on `int` for a positive divisor: the quotient is truncated
      toward zero, so the remainder `a - q * b` takes the sign of the
      dividend (Dafny's `/` is Euclidean and rounds negative quotients
      down instead). */
  function CsDiv(a: int, b: int): (q: int)
    requires b > 0
    ensures a >= 0 ==> 0 <= a - q * b < b
    ensures a < 0 ==> -b < a - q * b <= 0
  {
    if a >= 0 then a / b else -((-a) / b)
  }

  /** On an odd negative dividend halving differs between the two
      divisions by one: this is why the model cannot use `/` where the
      source halves a possibly negative number. */
  lemma CsHalfOfOddNegative(a: int)
    requires a < 0 && a % 2 == 1
    ensures CsDiv(a, 2) == a / 2 + 1
  {
    assert a == 2 * (a / 2) + 1;
    assert -a == 2 * CsDiv(a, 2) * -1 + ((-a) % 2) * 1 by {
      assert -a == 2 * ((-a) / 2) + (-a) % 2;
    }
  }
}
