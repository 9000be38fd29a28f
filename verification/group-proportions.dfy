/** The share of a CFQ group is the product of its weights over the product of the sums, but for the rounding. */
module GroupProportions {
  import opened Arithmetic
  import opened Lists
  import opened Options
  import opened GroupWeights
  import opened GroupShares

  // ---- products along the way to the root ----

  /** The weights of a group and of its ancestors below the root, multiplied. */
  function WeightsUp(gs: Groups, pos: Id): nat
    requires pos in gs
    decreases gs[pos].level
  {
    if !Climbable(gs, pos) then 1 else gs[pos].weight * WeightsUp(gs, gs[pos].parent.value)
  }

  /** The sums of weights that these compete with, multiplied. */
  function SumsUp(gs: Groups, pos: Id): nat
    requires pos in gs
    decreases gs[pos].level
  {
    if !Climbable(gs, pos) then 1 else gs[gs[pos].parent.value].childrenWeight * SumsUp(gs, gs[pos].parent.value)
  }

  /** The levels between a group and the root. */
  function LevelsUp(gs: Groups, pos: Id): nat
    requires pos in gs
    decreases gs[pos].level
  {
    if !Climbable(gs, pos) then 0 else 1 + LevelsUp(gs, gs[pos].parent.value)
  }

  lemma MulPos(a: nat, b: nat)
    requires a > 0 && b > 0
    ensures a * b > 0
  {
  }

  lemma MulLeLe(a: nat, b: nat, c: nat, d: nat)
    requires a <= b && c <= d
    ensures a * c <= b * d
  {
    MulLe(a, b, c);
    MulLe(c, d, b);
  }

  lemma {:induction false} ProductsUp(gs: Groups, pos: Id)
    requires InvBut(gs, None) && pos in gs && gs[pos].nrActive > 0
    ensures 0 < WeightsUp(gs, pos) <= SumsUp(gs, pos)
    decreases gs[pos].level
  {
    hide InvBut;
    ParentLive(gs, pos);
    if Climbable(gs, pos) {
      var p := gs[pos].parent.value;
      ProductsUp(gs, p);
      MulPos(gs[pos].weight, WeightsUp(gs, p));
      MulLeLe(gs[pos].weight, gs[p].childrenWeight, WeightsUp(gs, p), SumsUp(gs, p));
    }
  }

  // ---- one division ----

  lemma PortionIs(x: nat, w: nat, total: nat)
    requires total > 0
    ensures var v := Portion(x, w, total); v * total <= x * w < (v + 1) * total
  {
  }

  /** Dividing once more: what is rounded off at each level adds up. */
  lemma OneMore(x: nat, w: nat, total: nat, v: nat, ws: nat, ts: nat, share: nat, n: nat)
    requires v * total <= x * w < (v + 1) * total
    requires 0 < ws <= ts && share * ts <= v * ws <= (share + n) * ts
    ensures share * (total * ts) <= x * (w * ws) < (share + n + 1) * (total * ts)
  {
    Assoc(share, ts, total);
    MulLe(share * ts, v * ws, total);
    Assoc(v, ws, total);
    Assoc(v, total, ws);
    MulLe(v * total, x * w, ws);
    Assoc(x, w, ws);
    RoundedOff(x, w, total, v, ws, ts, share, n);
  }

  lemma Assoc(a: nat, b: nat, c: nat)
    ensures (a * b) * c == a * (b * c) == (a * c) * b && b * c == c * b
  {
  }

  lemma RoundedOff(x: nat, w: nat, total: nat, v: nat, ws: nat, ts: nat, share: nat, n: nat)
    requires x * w < (v + 1) * total && 0 < ws <= ts && v * ws <= (share + n) * ts
    ensures x * (w * ws) < (share + n + 1) * (total * ts)
  {
    OneUp(v, ws);
    OneUp(share + n, ts);
    Strictly(x * w, (v + 1) * total, ws);
    Assoc(x, w, ws);
    Assoc(v + 1, total, ws);
    MulLe((v + 1) * ws, (share + n + 1) * ts, total);
    Assoc(share + n + 1, ts, total);
  }

  lemma OneUp(a: nat, b: nat)
    ensures (a + 1) * b == a * b + b
  {
  }

  lemma Strictly(a: nat, b: nat, c: nat)
    requires a < b && c > 0
    ensures a * c < b * c
  {
    MulLe(a + 1, b, c);
    assert (a + 1) * c == a * c + c;
  }

  // ---- the share of a group ----

  lemma {:induction false} ShareUpIsProportional(gs: Groups, pos: Id, vfr: nat)
    requires InvBut(gs, None) && pos in gs && gs[pos].nrActive > 0
    ensures var s := ShareUp(gs, pos, vfr);
            s * SumsUp(gs, pos) <= vfr * WeightsUp(gs, pos) <= (s + LevelsUp(gs, pos)) * SumsUp(gs, pos)
    decreases gs[pos].level
  {
    hide InvBut, Portion;
    ParentLive(gs, pos);
    if Climbable(gs, pos) {
      var p := gs[pos].parent.value;
      var w, total := gs[pos].weight, gs[p].childrenWeight;
      var v := Portion(vfr, w, total);
      ShareUpIsProportional(gs, p, v);
      ProductsUp(gs, p);
      PortionIs(vfr, w, total);
      OneMore(vfr, w, total, v, WeightsUp(gs, p), SumsUp(gs, p), ShareUp(gs, p, v), LevelsUp(gs, p));
    }
  }

  /**
   The share of a group on the service tree is its leaf weight times the weights above it, over the sums of
   weights these compete with, to within one unit in 4096 for each division on the way to the root.
   */
  lemma ShareIsProportional(gs: Groups, id: Id)
    requires InvBut(gs, None) && id in gs && gs[id].onTree
    ensures gs[id].childrenWeight > 0
    ensures var w, t := gs[id].leaf * WeightsUp(gs, id), gs[id].childrenWeight * SumsUp(gs, id);
            Share(gs, id) * t <= ONE * w < (Share(gs, id) + LevelsUp(gs, id) + 1) * t
  {
    hide InvBut, Portion, WeightsUp, SumsUp, LevelsUp, ShareUp;
    OnTreeIsActive(gs, id);
    ParentLive(gs, id);
    var v := Portion(ONE, gs[id].leaf, gs[id].childrenWeight);
    ShareUpIsProportional(gs, id, v);
    ProductsUp(gs, id);
    PortionIs(ONE, gs[id].leaf, gs[id].childrenWeight);
    OneMore(ONE, gs[id].leaf, gs[id].childrenWeight, v, WeightsUp(gs, id), SumsUp(gs, id), ShareUp(gs, id, v), LevelsUp(gs, id));
  }

  /** The same of the fraction that is installed when a group enters the tree, which is never below one unit. */
  lemma InstalledIsProportional(gs: Groups, id: Id)
    requires InvBut(gs, None) && id in gs && !gs[id].onTree
    ensures var gs' := TreeAdd(gs, id);
            id in gs' && gs'[id].childrenWeight > 0 &&
            var v, w, t := gs'[id].vfraction, gs'[id].leaf * WeightsUp(gs', id), gs'[id].childrenWeight * SumsUp(gs', id);
            v >= 1 && (v > 1 ==> v * t <= ONE * w) && ONE * w < (v + LevelsUp(gs', id) + 1) * t
  {
    hide InvBut, Share, WeightsUp, SumsUp, LevelsUp, Added;
    AddedKeeps(gs, id);
    var gs1 := Added(gs, id);
    CosmeticWeights(gs1, id);
    CosmeticKeeps(gs1, id, gs1[id].(vfraction := Max(Share(gs1, id), 1)), None);
    InstalledIsShare(gs, id);
    var gs' := TreeAdd(gs, id);
    ShareIsProportional(gs', id);
    MulLe(Share(gs', id) + LevelsUp(gs', id) + 1, gs'[id].vfraction + LevelsUp(gs', id) + 1, gs'[id].childrenWeight * SumsUp(gs', id));
  }

  // ---- heavier groups ----

  lemma PortionMonotone(x: nat, y: nat, w: nat, u: nat, total: nat)
    requires total > 0 && x <= y && w <= u
    ensures Portion(x, w, total) <= Portion(y, u, total)
  {
    MulLeLe(x, y, w, u);
    DivMono(x * w, y * u, total);
  }

  lemma {:induction false} ShareUpMonotone(gs: Groups, pos: Id, x: nat, y: nat)
    requires pos in gs && x <= y
    ensures ShareUp(gs, pos, x) <= ShareUp(gs, pos, y)
    decreases gs[pos].level
  {
    if Climbable(gs, pos) {
      var p := gs[pos].parent.value;
      PortionMonotone(x, y, gs[pos].weight, gs[pos].weight, gs[p].childrenWeight);
      ShareUpMonotone(gs, p, Portion(x, gs[pos].weight, gs[p].childrenWeight), Portion(y, gs[pos].weight, gs[p].childrenWeight));
    }
  }

  /** Of two groups below the same parent that are alike inside, the heavier one gets no less. */
  lemma HeavierGetsNoLess(gs: Groups, a: Id, b: Id)
    requires InvBut(gs, None) && a in gs && b in gs && gs[a].onTree && gs[b].onTree && gs[a].parent == gs[b].parent
    requires gs[a].leaf == gs[b].leaf && gs[a].childrenWeight == gs[b].childrenWeight && gs[a].weight <= gs[b].weight
    requires gs[a].parent.Some?
    ensures gs[a].childrenWeight > 0 && Share(gs, a) <= Share(gs, b)
  {
    hide InvBut, Portion;
    OnTreeIsActive(gs, a);
    OnTreeIsActive(gs, b);
    ParentLive(gs, a);
    ParentLive(gs, b);
    var p, v := gs[a].parent.value, Portion(ONE, gs[a].leaf, gs[a].childrenWeight);
    PortionMonotone(v, v, gs[a].weight, gs[b].weight, gs[p].childrenWeight);
    ShareUpMonotone(gs, p, Portion(v, gs[a].weight, gs[p].childrenWeight), Portion(v, gs[b].weight, gs[p].childrenWeight));
  }

  // ---- the charge ----

  /** The charge times the share is the time used, in fixed point and but for the rounding. */
  lemma ChargeIsInverse(charge: nat, v: nat)
    requires v > 0
    ensures ScaleCharge(charge, v) * v <= charge * (ONE * ONE) < (ScaleCharge(charge, v) + 1) * v
  {
  }

  lemma QuotientIs(x: nat, v: nat, q: nat)
    requires v > 0 && q * v <= x < (q + 1) * v
    ensures x / v == q
  {
    var p := x / v;
    assert p * v <= x < (p + 1) * v;
    CancelLess(q, p + 1, v);
    CancelLess(p, q + 1, v);
  }

  /** Groups that used the disk in proportion to their shares are charged the same. */
  lemma EqualServiceEqualCharge(c: nat, v: nat, c': nat, v': nat)
    requires v > 0 && v' > 0 && c * v' == c' * v
    ensures ScaleCharge(c, v) == ScaleCharge(c', v')
  {
    hide ScaleCharge;
    var k := ONE * ONE;
    var q := ScaleCharge(c, v);
    ChargeIsInverse(c, v);
    Swap(c, v, c', v', k);
    MulLe(q * v, c * k, v');
    Assoc(q, v', v);
    Assoc(q, v, v');
    CancelLe(q * v', c' * k, v);
    Strictly(c * k, (q + 1) * v, v');
    Assoc(q + 1, v', v);
    Assoc(q + 1, v, v');
    CancelLess(c' * k, (q + 1) * v', v);
    ScaleIs(c', v', q);
  }

  lemma CancelLe(a: nat, b: nat, v: nat)
    requires v > 0 && a * v <= b * v
    ensures a <= b
  {
    assert (b + 1) * v == b * v + v;
    CancelLess(a, b + 1, v);
  }

  lemma Swap(c: nat, v: nat, c': nat, v': nat, k: nat)
    requires c * v' == c' * v
    ensures (c' * k) * v == (c * k) * v'
  {
    Assoc(c', k, v);
    Assoc(c, k, v');
  }

  lemma ScaleIs(c: nat, v: nat, q: nat)
    requires v > 0 && q * v <= c * (ONE * ONE) < (q + 1) * v
    ensures ScaleCharge(c, v) == q
  {
    QuotientIs(c * (ONE * ONE), v, q);
  }
}
