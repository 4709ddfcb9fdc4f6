/**
 * The few pieces of .NET behaviour the aggregator depends on: 32-bit integers,
 * `Math.Abs` (which throws on `int.MinValue`), C#'s truncating `%`,
 * `Math.Clamp`, nullable references and thrown exceptions.
 */
module DotNet {

  const MinValue: int := -0x8000_0000
  const MaxValue: int := 0x7FFF_FFFF

  /** A C# `int`. */
  type Int32 = x: int | MinValue <= x <= MaxValue

  /** A nullable reference: `None` is `null`. */
  datatype Option<+T> = None | Some(value: T)

  /** How a call completes: with a value, or by throwing an exception with a message. */
  datatype Outcome<+T> = Returned(value: T) | Threw(message: string)

  /** The message of the `OverflowException` that `Math.Abs(int.MinValue)` throws. */
  const OverflowMessage: string := "Negating the minimum value of a twos complement number is invalid."

  /** `Math.Abs(int)`: the magnitude, or an `OverflowException` for the one value whose negation does not fit. */
  function Abs(x: Int32): (r: Outcome<Int32>)
    ensures r.Returned? <==> x != MinValue
    ensures r.Returned? ==> 0 <= r.value && (r.value == x || r.value == -x)
    ensures r.Threw? ==> r.message == OverflowMessage
  {
    if x == MinValue then Threw(OverflowMessage)
    else if x < 0 then Returned(-x)
    else Returned(x)
  }

  /** The mathematical absolute value (no overflow). */
  function Mag(x: int): nat {
    if x < 0 then -x else x
  }

  /** C#'s `x / n` for a positive `n`: the quotient truncated toward zero. */
  function Quot(x: int, n: int): int
    requires 0 < n
  {
    if 0 <= x then x / n else -(Mag(x) / n)
  }

  /** C#'s `x % n`: the remainder of division truncated toward zero, so it takes the sign of `x`. */
  function Rem(x: Int32, n: int): (r: Int32)
    requires 0 < n <= MaxValue
    ensures -n < r < n
    ensures 0 <= x ==> 0 <= r
    ensures x <= 0 ==> r <= 0
    ensures Mag(r) == Mag(x) % n
  {
    var magnitude: nat := if 0 <= x then x as int else -(x as int);
    var m := magnitude % n;
    assert 0 <= m < n;
    if 0 <= x then m else -m
  }

  /** `Rem` is the remainder of C#'s truncating division: `x == n * (x / n) + x % n`. */
  lemma RemIsTruncatedRemainder(x: Int32, n: int)
    requires 0 < n <= MaxValue
    ensures x as int == n * Quot(x, n) + Rem(x, n)
    ensures Mag(n * Quot(x, n)) <= Mag(x)
  {
    var m := Mag(x);
    var q := m / n;
    var p := n * q;
    var r := m % n;
    assert m == p + r;
    assert 0 <= p by {
      MulNonNegative(n, q);
    }
    assert Rem(x, n) == if 0 <= x then r else -r;
    if x < 0 {
      assert n * Quot(x, n) == -p by {
        assert Quot(x, n) == -q;
        MulNegate(n, q);
      }
    } else {
      assert Quot(x, n) == q;
    }
  }

  lemma MulNonNegative(a: nat, b: nat)
    ensures 0 <= a * b
  {
  }

  lemma MulNegate(a: int, b: int)
    ensures a * -b == -(a * b)
  {
  }

  /** `Math.Abs(x % n)`, which can never throw: the remainder is strictly inside (-n, n). */
  function AbsRem(x: Int32, n: int): (r: nat)
    requires 0 < n <= MaxValue
    ensures r < n
    ensures r == Mag(x) % n
    ensures Abs(Rem(x, n)) == Returned(r)
  {
    var rem := Rem(x, n);
    if rem < 0 then -rem else rem
  }

  /** `Math.Clamp(value, min, max)`. */
  function Clamp(value: int, min: int, max: int): (r: int)
    requires min <= max
    ensures min <= r <= max
    ensures min <= value <= max ==> r == value
    ensures value < min ==> r == min
    ensures max < value ==> r == max
  {
    if value < min then min else if max < value then max else value
  }
}
