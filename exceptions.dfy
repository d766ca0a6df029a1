/**
 * The exception-handling demo: `divide(divisor)` computes `5 / divisor` inside a `try`, throws an
 * `IllegalArgumentException` for a zero divisor, and its `catch` returns the exception's message.
 */
module Exceptions {
  import opened Int32
  import opened Wrappers
  import opened Reports

  function Abs(x: int): nat {
    if x < 0 then -x else x
  }

  /**
   * Kotlin's `/` as `divide` uses it, with the dividend 5: the quotient rounded toward zero (Dafny's own
   * `/` is Euclidean). On unbounded integers it does not model `Int.MIN_VALUE / -1`, which Kotlin wraps.
   */
  function TruncDiv(a: int, b: int): (q: int)
    requires b != 0
    ensures q == 0 || ((q < 0) <==> ((a < 0) != (b < 0)))
    ensures Abs(q) <= Abs(a)
  {
    QuotientBound(Abs(a), Abs(b));
    var q := Abs(a) / Abs(b);
    if (a < 0) == (b < 0) then q else -q
  }

  /**
   * The quotient leaves a remainder smaller than the divisor and of the dividend's sign, and its
   * magnitude is the largest multiple that fits: this pins down truncating division.
   */
  lemma TruncDivRemainder(a: int, b: int)
    requires b != 0
    ensures Abs(a - TruncDiv(a, b) * b) < Abs(b)
    ensures a - TruncDiv(a, b) * b == 0 || (a - TruncDiv(a, b) * b < 0) == (a < 0)
    ensures Abs(TruncDiv(a, b)) * Abs(b) <= Abs(a)
  {
    var q, m := Abs(a) / Abs(b), Abs(a) % Abs(b);
    DivModSplit(Abs(a), Abs(b));
    var t := TruncDiv(a, b);
    assert Abs(t) == q;
    SignedProduct(q, Abs(b), t, b);
    if a >= 0 {
      assert t * b == q * Abs(b);
    } else {
      assert t * b == -(q * Abs(b));
    }
  }

  /** Proof helper: dividing a natural by a positive one does not increase it. */
  lemma QuotientBound(x: nat, y: nat)
    requires y > 0
    ensures x / y <= x
  {
    DivModSplit(x, y);
    ProductBound(x / y, y);
  }

  /** Proof helper: multiplying by a positive natural does not decrease a natural. */
  lemma {:induction false} ProductBound(q: nat, y: nat)
    requires y >= 1
    ensures q <= q * y
  {
    if y > 1 {
      ProductBound(q, y - 1);
      assert q * y == q * (y - 1) + q;
    }
  }

  /** Proof helper: Euclidean division of naturals. */
  lemma DivModSplit(x: nat, y: nat)
    requires y > 0
    ensures x == (x / y) * y + x % y && 0 <= x % y < y && x / y >= 0
  {
  }

  /** Proof helper: the product of two numbers is the product of their magnitudes, up to sign. */
  lemma SignedProduct(p: nat, r: nat, x: int, y: int)
    requires Abs(x) == p && Abs(y) == r
    ensures (x < 0) == (y < 0) || x == 0 || y == 0 ==> x * y == p * r
    ensures (x < 0) != (y < 0) ==> x * y == -(p * r)
  {
    if x < 0 && y >= 0 {
      assert x * y == -(p * r);
    } else if x >= 0 && y < 0 {
      assert x * y == -(p * r);
    }
  }

  const DivideByZeroMessage: string := "Can't Divide by Zero"

  /** The body of the `try`: the exception's message for a zero divisor, otherwise the line "5 / d = q". */
  function DivideOrThrow(divisor: int32): (r: Result<Report, string>)
    ensures r.Err? <==> divisor == 0
    ensures r.Err? ==> r.error == DivideByZeroMessage
  {
    if divisor == 0 then Err(DivideByZeroMessage)
    else Ok([Text("5 / "), Int(divisor as int), Text(" = "), Int(TruncDiv(5, divisor as int))])
  }

  /**
   * `divide(divisor)`: the `catch` returns the message, so the result is the division-by-zero message
   * exactly when the divisor is zero; otherwise it shows the divisor and the truncated quotient of 5
   * by it, which is always a valid `Int` (at most 5 in magnitude).
   */
  function Divide(divisor: int32): (r: Report)
    ensures r == [Text(DivideByZeroMessage)] <==> divisor == 0
    ensures divisor != 0 ==> |r| == 4 && r[0] == Text("5 / ") && r[1] == Int(divisor as int)
                             && r[2] == Text(" = ") && r[3].Int?
                             && 0 <= 5 - r[3].i * divisor as int < Abs(divisor as int)
                             && -5 <= r[3].i <= 5
  {
    match DivideOrThrow(divisor)
    case Ok(line) =>
      TruncDivRemainder(5, divisor as int);
      line
    case Err(message) => [Text(message)]
  }

  /** The two calls of the demo: `divide(5)` and `divide(0)`. */
  lemma DivideSamples()
    ensures Divide(5) == [Text("5 / "), Int(5), Text(" = "), Int(1)]
    ensures Divide(0) == [Text("Can't Divide by Zero")]
    ensures Divide(-2) == [Text("5 / "), Int(-2), Text(" = "), Int(-2)]
  {
  }
}
