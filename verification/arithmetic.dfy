/** Arithmetic that several modules need and the verifier does not do by itself. */
module Arithmetic {

  function Max(a: int, b: int): int { if a < b then b else a }

  function Min(a: int, b: int): int { if a < b then a else b }

  lemma MulLe(a: nat, b: nat, w: nat)
    requires a <= b
    ensures a * w <= b * w
  {
  }

  lemma CancelLess(a: nat, b: nat, v: nat)
    ensures a * v < b * v ==> a < b
  {
    if b <= a {
      MulLe(b, a, v);
    }
  }

  lemma DivMono(x: nat, y: nat, w: nat)
    requires x <= y && w >= 1
    ensures x / w <= y / w
  {
    var p, r := x / w, y / w;
    assert p * w <= x && y < (r + 1) * w;
    CancelLess(p, r + 1, w);
  }

  lemma Steps(a: nat, b: nat, g: nat)
    ensures a < b ==> a * g + g <= b * g
  {
    if a < b {
      MulLe(a + 1, b, g);
      assert (a + 1) * g == a * g + g;
    }
  }

  /** Quotient and remainder are unique. */
  lemma DivMod(x: nat, q: nat, g: nat, r: nat)
    requires x == q * g + r && r < g
    ensures x / g == q && x % g == r
  {
    var p := x / g;
    assert x == p * g + x % g;
    Steps(p, q, g);
    Steps(q, p, g);
  }
}
