// Small shared vocabulary.
module Base {
  datatype Option<+T> = None | Some(value: T)

  datatype Result<+T> = Ok(value: T) | Err

  function Min(a: int, b: int): int { if a <= b then a else b }

  function Max(a: int, b: int): int { if a <= b then b else a }

  const TWO63: int := 0x8000_0000_0000_0000
  const TWO64: int := 0x1_0000_0000_0000_0000

  // Two's complement wrap-around of a 64-bit integer.
  function Wrap(n: int): int { (n + TWO63) % TWO64 - TWO63 }

  lemma WrapFits(n: int)
    requires -TWO63 <= n < TWO63
    ensures Wrap(n) == n
  {
  }

  lemma WrapPast(n: int)
    requires TWO63 <= n < TWO63 + TWO64
    ensures Wrap(n) == n - TWO64
  {
  }

  // A number above all of a set.
  lemma {:induction false} Unused(keys: set<nat>) returns (k: nat)
    ensures forall x :: x in keys ==> x < k
    decreases |keys|
  {
    k := 0;
    if keys != {} {
      var x :| x in keys;
      var below := Unused(keys - {x});
      k := if below > x then below else x + 1;
      forall y | y in keys ensures y < k { assert y == x || y in keys - {x}; }
    }
  }

  // {0, .., k-1}
  function Below(k: nat): (r: set<nat>)
    ensures forall i: nat :: i in r <==> i < k
    ensures |r| == k
  {
    if k == 0 then {} else Below(k - 1) + {k - 1}
  }
}
