/** The arithmetic and string tools of the agent's toolbox (`my_agent.py`), modelled on
    unbounded integers and `seq<char>`. A raised exception is a `Failure`. */
module Tools {
  import opened Wrappers
  import PyInt
  import PyStr

  /** The exceptions the modelled tools raise. */
  datatype ToolError = ValueError(message: string) | ZeroDivisionError

  const DivideByZeroMessage := "Cannot divide by zero."

  /** Python's `sum` over a list of integers (nested to the right here, which is the same
      for integers). */
  function Sum(xs: seq<int>): (r: int)
  {
    if xs == [] then 0 else xs[0] + Sum(xs[1..])
  }

  /** The `add` tool: the sum of the list it is given. */
  function Add(toAdd: seq<int>): (r: int)
  {
    Sum(toAdd)
  }

  lemma AddEmpty()
    ensures Add([]) == 0
  {
  }

  lemma AddPair(a: int, b: int)
    ensures Add([a, b]) == a + b
  {
    assert [a, b][1..] == [b];
    assert [b][1..] == [];
    assert Sum([b]) == b;
  }

  /** Adding a concatenation is adding the parts. */
  lemma {:induction false} AddConcat(xs: seq<int>, ys: seq<int>)
    ensures Add(xs + ys) == Add(xs) + Add(ys)
  {
    if xs == [] {
      assert xs + ys == ys;
    } else {
      assert (xs + ys)[1..] == xs[1..] + ys;
      AddConcat(xs[1..], ys);
    }
  }

  /** The `subtract` tool: undoes adding `b`. */
  function Subtract(a: int, b: int): (r: int)
    ensures Add([r, b]) == a
  {
    AddPair(a - b, b);
    a - b
  }

  /** The `multiply` tool. */
  function Multiply(a: int, b: int): (r: int)
  {
    a * b
  }

  /** `n` copies of `a`. */
  function Repeat(a: int, n: nat): (r: seq<int>)
    ensures |r| == n && forall i :: 0 <= i < n ==> r[i] == a
  {
    if n == 0 then [] else [a] + Repeat(a, n - 1)
  }

  /** Multiplying by `n` (or by `-n`) is adding `n` copies (or subtracting them). */
  lemma {:induction false} MultiplyIsRepeatedAddition(a: int, n: nat)
    ensures Multiply(a, n) == Add(Repeat(a, n))
    ensures Multiply(a, -(n as int)) == Subtract(0, Add(Repeat(a, n)))
  {
    if n > 0 {
      MultiplyIsRepeatedAddition(a, n - 1);
      assert Repeat(a, n)[1..] == Repeat(a, n - 1);
      assert a * n == a + a * (n - 1);
    }
  }

  /** The `divide` tool. Python's true division returns a float; the model returns the
      exact quotient, which the float approximates. */
  function Divide(a: int, b: int): (r: Result<real, ToolError>)
    ensures r.Failure? <==> b == 0
    ensures r.Failure? ==> r.error == ValueError(DivideByZeroMessage)
    ensures r.Success? ==> r.value * (b as real) == a as real
  {
    if b == 0 then Failure(ValueError(DivideByZeroMessage))
    else Success(a as real / b as real)
  }

  /** The `modulus` tool: Python's `a % b`, which floors, unlike Dafny's Euclidean `%`. */
  function Modulus(a: int, b: int): (r: Result<int, ToolError>)
    ensures r.Failure? <==> b == 0
    ensures r.Failure? ==> r.error == ZeroDivisionError
    ensures r.Success? ==> a == b * PyInt.FloorDiv(a, b) + r.value
    ensures r.Success? ==> r.value == 0 || (r.value > 0) == (b > 0)
    ensures r.Success? ==> PyInt.Abs(r.value) < PyInt.Abs(b)
  {
    if b == 0 then Failure(ZeroDivisionError) else Success(PyInt.FloorMod(a, b))
  }

  /** A remainder with the division identity, the sign of `b` and a magnitude below `|b|`
      is the one `modulus` returns. */
  lemma ModulusUnique(a: int, b: int, q: int, r: int)
    requires b != 0
    requires a == b * q + r
    requires r == 0 || (r > 0) == (b > 0)
    requires PyInt.Abs(r) < PyInt.Abs(b)
    ensures Modulus(a, b) == Success(r)
  {
    PyInt.FloorPairUnique(a, b, q, r);
  }

  /** Where Python's `%` and Dafny's `%` part ways: a negative divisor and an inexact division. */
  lemma ModulusOfNegatives()
    ensures Modulus(7, -2) == Success(-1) && 7 % -2 == 1
    ensures Modulus(-7, 2) == Success(1)
    ensures Modulus(-7, -2) == Success(-1) && -7 % -2 == 1
  {
    ModulusUnique(7, -2, -4, -1);
    ModulusUnique(-7, 2, -4, 1);
    ModulusUnique(-7, -2, 3, -1);
  }

  /** The `reverse_string` tool: Python's `string[::-1]`. */
  function ReverseString(s: string): (r: string)
    ensures |r| == |s|
    ensures forall i :: 0 <= i < |s| ==> r[i] == s[|s| - 1 - i]
  {
    PyStr.Reverse(s)
  }

  lemma ReverseStringTwice(s: string)
    ensures ReverseString(ReverseString(s)) == s
  {
    PyStr.ReverseInvolutive(s);
  }

  lemma ReverseOlleh()
    ensures ReverseString("olleh") == "hello"
  {
    var r := ReverseString("olleh");
    assert r[0] == 'h' && r[1] == 'e' && r[2] == 'l' && r[3] == 'l' && r[4] == 'o';
  }
}
