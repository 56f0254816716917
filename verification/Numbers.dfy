/** Arithmetic that several components share. */
module Numbers {
  function Min(a: int, b: int): int {
    if a < b then a else b
  }

  function Max(a: int, b: int): int {
    if a < b then b else a
  }

  function Pow2(n: nat): nat {
    if n == 0 then 1 else 2 * Pow2(n - 1)
  }

  lemma Scaled(x: real, y: real, k: real)
    requires k > 0.0
    ensures x < y <==> x * k < y * k
  {
    assert y * k - x * k == (y - x) * k;
  }

  lemma {:induction false} Above(s: set<nat>) returns (n: nat)
    ensures forall x :: x in s ==> x < n
  {
    if s == {} {
      return 0;
    }
    var x :| x in s;
    var m := Above(s - {x});
    n := if x < m then m else x + 1;
    forall y | y in s
      ensures y < n
    {
      assert y == x || y in s - {x};
    }
  }

  lemma {:induction false} Longer(s: set<string>) returns (t: string)
    ensures t != "" && forall x :: x in s ==> |x| < |t|
  {
    if s == {} {
      return "x";
    }
    var x :| x in s;
    var u := Longer(s - {x});
    t := if |x| < |u| then u else x + "x";
    forall y | y in s
      ensures |y| < |t|
    {
      assert y == x || y in s - {x};
    }
  }
}
