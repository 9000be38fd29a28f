/**
 The shares that CFQ compounds from weights, with rounding down at every level, never add up to more
 than one, however deep the hierarchy; and the in-place updates of the group tree.
 */
module GroupShares {
  import opened Arithmetic
  import opened Lists
  import opened Options
  import opened GroupWeights

  // ---- All shares at once ----

  function Part(x: nat, w: nat, total: int): nat {
    if total > 0 then Portion(x, w, total) else 0
  }

  function Scale(es: seq<(Id, nat)>, w: nat, total: int): seq<(Id, nat)> {
    if es == [] then [] else [(es[0].0, Part(es[0].1, w, total))] + Scale(es[1..], w, total)
  }

  function Sum(es: seq<(Id, nat)>): nat {
    if es == [] then 0 else es[0].1 + Sum(es[1..])
  }

  ghost predicate Levels(gs: Groups, h: nat) {
    Shape(gs) && forall g :: g in gs ==> gs[g].level <= h
  }

  ghost predicate ChildrenOf(gs: Groups, node: Id, cs: seq<Id>) {
    node in gs && forall c :: c in cs ==> c in gs && gs[node].level < gs[c].level
  }

  /** Top down: every group on the service tree below `node`, with its share of what `node` gets. */
  ghost function Entries(gs: Groups, node: Id, h: nat): seq<(Id, nat)>
    requires node in gs && gs[node].level <= h
    decreases h - gs[node].level, 1, 0
  {
    (if gs[node].onTree then [(node, Part(ONE, gs[node].leaf, gs[node].childrenWeight))] else [])
    + Below(gs, node, gs[node].children, h)
  }

  ghost function Below(gs: Groups, node: Id, cs: seq<Id>, h: nat): seq<(Id, nat)>
    requires node in gs && gs[node].level <= h
    decreases h - gs[node].level, 0, |cs|
  {
    if cs == [] then []
    else
      (if cs[0] in gs && gs[node].level < gs[cs[0]].level <= h && gs[cs[0]].nrActive > 0
       then Scale(Entries(gs, cs[0], h), gs[cs[0]].weight, gs[node].childrenWeight) else [])
      + Below(gs, node, cs[1..], h)
  }

  lemma {:induction false} SumConcat(a: seq<(Id, nat)>, b: seq<(Id, nat)>)
    ensures Sum(a + b) == Sum(a) + Sum(b)
  {
    if a == [] {
      assert a + b == b;
    } else {
      assert (a + b)[1..] == a[1..] + b;
      SumConcat(a[1..], b);
    }
  }

  lemma PartBound(x: nat, w: nat, total: int)
    requires total > 0
    ensures total * Part(x, w, total) <= x * w
  {
  }

  lemma ScaledStep(total: int, d: nat, rest: nat, x: nat, xs: nat, w: nat)
    requires total * d <= x * w && total * rest <= xs * w
    ensures total * (d + rest) <= (x + xs) * w
  {
    assert total * (d + rest) == total * d + total * rest;
    assert (x + xs) * w == x * w + xs * w;
  }

  lemma {:induction false} ScaledSum(es: seq<(Id, nat)>, w: nat, total: int)
    requires total > 0
    ensures total * Sum(Scale(es, w, total)) <= Sum(es) * w
  {
    hide Part;
    if es != [] {
      ScaledSum(es[1..], w, total);
      var d := Part(es[0].1, w, total);
      PartBound(es[0].1, w, total);
      assert Scale(es, w, total)[1..] == Scale(es[1..], w, total);
      ScaledStep(total, d, Sum(Scale(es[1..], w, total)), es[0].1, Sum(es[1..]), w);
    }
  }

  lemma {:induction false} BelowSum(gs: Groups, node: Id, cs: seq<Id>, h: nat)
    requires InvBut(gs, None) && Levels(gs, h) && ChildrenOf(gs, node, cs)
    requires gs[node].childrenWeight > 0
    ensures gs[node].childrenWeight * Sum(Below(gs, node, cs, h)) <= ONE * Weights(gs, cs, None)
    decreases h - gs[node].level, 0, |cs|
  {
    hide InvBut, Entries, Scale, Sum;
    var total := gs[node].childrenWeight;
    if cs == [] {
      assert Below(gs, node, cs, h) == [];
      SumNone();
    } else {
      BelowSum(gs, node, cs[1..], h);
      var rest := Below(gs, node, cs[1..], h);
      if gs[cs[0]].nrActive > 0 {
        var c := cs[0];
        var es := Entries(gs, c, h);
        SharesAddUp(gs, c, h);
        ScaledSum(es, gs[c].weight, total);
        MulLe(Sum(es), ONE, gs[c].weight);
        SumConcat(Scale(es, gs[c].weight, total), rest);
        assert total * (Sum(Scale(es, gs[c].weight, total)) + Sum(rest))
            == total * Sum(Scale(es, gs[c].weight, total)) + total * Sum(rest);
      } else {
        assert [] + rest == rest;
      }
    }
  }

  lemma SumNone()
    ensures Sum([]) == 0
  {
  }

  lemma SumOne(e: (Id, nat))
    ensures Sum([e]) == e.1
  {
  }

  lemma CancelFactor(total: nat, x: nat)
    requires total > 0
    ensures total * x <= ONE * total ==> x <= ONE
  {
    if x > ONE {
      MulLe(ONE + 1, x, total);
    }
  }

  /** The shares of everything below an active group add up to at most one. */
  lemma {:induction false} SharesAddUp(gs: Groups, node: Id, h: nat)
    requires InvBut(gs, None) && Levels(gs, h) && node in gs && gs[node].nrActive > 0
    ensures Sum(Entries(gs, node, h)) <= ONE
    decreases h - gs[node].level, 1, 0
  {
    hide Sum, Below, Actives, Weights, NoDup, Part;
    ParentLive(gs, node);
    var r := gs[node];
    var total := r.childrenWeight;
    assert Balanced(gs, node, None);
    assert ChildrenOf(gs, node, r.children) by {
      forall c | c in r.children
        ensures c in gs && r.level < gs[c].level
      {
        assert Above(gs, node, c);
      }
    }
    BelowSum(gs, node, r.children, h);
    var below := Below(gs, node, r.children, h);
    if r.onTree {
      var own := (node, Part(ONE, r.leaf, total));
      SumConcat([own], below);
      SumOne(own);
      PartBound(ONE, r.leaf, total);
      assert total * (own.1 + Sum(below)) == total * own.1 + total * Sum(below);
    } else {
      assert [] + below == below;
    }
    CancelFactor(total, Sum(Entries(gs, node, h)));
  }

  // ---- Each entry is the share the code computes ----

  lemma {:induction false} ScaleHas(es: seq<(Id, nat)>, e: (Id, nat), w: nat, total: int)
    requires e in es
    ensures (e.0, Part(e.1, w, total)) in Scale(es, w, total)
  {
    if es[0] != e {
      ScaleHas(es[1..], e, w, total);
    }
  }

  lemma {:induction false} BelowHas(gs: Groups, node: Id, cs: seq<Id>, c: Id, e: (Id, nat), h: nat)
    requires ChildrenOf(gs, node, cs) && gs[node].level <= h && c in cs && gs[c].level <= h && gs[c].nrActive > 0
    requires e in Entries(gs, c, h)
    ensures (e.0, Part(e.1, gs[c].weight, gs[node].childrenWeight)) in Below(gs, node, cs, h)
  {
    hide Entries, Scale, Part;
    if cs[0] == c {
      ScaleHas(Entries(gs, c, h), e, gs[c].weight, gs[node].childrenWeight);
    } else {
      BelowHas(gs, node, cs[1..], c, e, h);
    }
  }

  /** The root above a group. */
  function RootOf(gs: Groups, pos: Id): Id
    requires pos in gs
    decreases gs[pos].level
  {
    if Climbable(gs, pos) then RootOf(gs, gs[pos].parent.value) else pos
  }

  /** An entry below `pos` is found again below the root, compounded as the walk up compounds it. */
  lemma {:induction false} EntryClimbs(gs: Groups, pos: Id, e: (Id, nat), h: nat)
    requires InvBut(gs, None) && Levels(gs, h) && pos in gs && gs[pos].nrActive > 0
    requires e in Entries(gs, pos, h)
    ensures RootOf(gs, pos) in gs && gs[RootOf(gs, pos)].nrActive > 0 && gs[RootOf(gs, pos)].level <= h
    ensures (e.0, ShareUp(gs, pos, e.1)) in Entries(gs, RootOf(gs, pos), h)
    decreases gs[pos].level
  {
    hide InvBut, Below, NoDup;
    ParentLive(gs, pos);
    if Climbable(gs, pos) {
      var p := gs[pos].parent.value;
      assert Above(gs, p, pos);
      assert ChildrenOf(gs, p, gs[p].children) by {
        forall c | c in gs[p].children
          ensures c in gs && gs[p].level < gs[c].level
        {
          assert Above(gs, p, c);
        }
      }
      BelowHas(gs, p, gs[p].children, pos, e, h);
      EntryClimbs(gs, p, (e.0, Portion(e.1, gs[pos].weight, gs[p].childrenWeight)), h);
    }
  }

  lemma ShareIsEntry(gs: Groups, g: Id, h: nat)
    requires InvBut(gs, None) && Levels(gs, h) && g in gs && gs[g].onTree
    ensures gs[g].childrenWeight > 0
    ensures RootOf(gs, g) in gs && gs[RootOf(gs, g)].nrActive > 0 && gs[RootOf(gs, g)].level <= h
    ensures (g, Share(gs, g)) in Entries(gs, RootOf(gs, g), h)
  {
    hide InvBut, Below, ShareUp;
    OnTreeIsActive(gs, g);
    ParentLive(gs, g);
    EntryClimbs(gs, g, (g, Portion(ONE, gs[g].leaf, gs[g].childrenWeight)), h);
  }

  // ---- The theorem ----

  ghost predicate Busy(gs: Groups, list: seq<Id>, root: Id) {
    forall g :: g in list ==> g in gs && gs[g].onTree && gs[g].childrenWeight > 0 && RootOf(gs, g) == root
  }

  function TotalShare(gs: Groups, list: seq<Id>): nat
    requires forall g :: g in list ==> g in gs && gs[g].childrenWeight > 0
  {
    if list == [] then 0 else Share(gs, list[0]) + TotalShare(gs, list[1..])
  }

  lemma {:induction false} SumWithout(es: seq<(Id, nat)>, e: (Id, nat))
    requires e in es
    ensures Sum(es) == e.1 + Sum(Without(es, e))
  {
    if es[0] != e {
      SumWithout(es[1..], e);
      assert Without(es, e)[1..] == Without(es[1..], e);
    }
  }

  lemma {:induction false} PartOfSum(gs: Groups, list: seq<Id>, es: seq<(Id, nat)>)
    requires NoDup(list) && forall g :: g in list ==> g in gs && gs[g].childrenWeight > 0
    requires forall g :: g in list ==> (g, Share(gs, g)) in es
    ensures TotalShare(gs, list) <= Sum(es)
  {
    hide Share, Sum;
    if list != [] {
      var e := (list[0], Share(gs, list[0]));
      assert list[0] in list;
      SumWithout(es, e);
      var es' := Without(es, e);
      forall g | g in list[1..]
        ensures (g, Share(gs, g)) in es'
      {
        assert g in list && g != list[0];
        WithoutHas(es, e, (g, Share(gs, g)));
      }
      PartOfSum(gs, list[1..], es');
    }
  }

  /** Of any groups on the service tree of one root, the shares add up to at most one. */
  lemma SharesNeverExceedOne(gs: Groups, list: seq<Id>, root: Id, h: nat)
    requires InvBut(gs, None) && Levels(gs, h) && NoDup(list) && Busy(gs, list, root)
    ensures TotalShare(gs, list) <= ONE
  {
    hide InvBut, Levels, NoDup, Share, Entries, Sum, RootOf;
    if list != [] {
      ShareIsEntry(gs, list[0], h);
      forall g | g in list
        ensures (g, Share(gs, g)) in Entries(gs, root, h)
      {
        ShareIsEntry(gs, g, h);
      }
      SharesAddUp(gs, root, h);
      PartOfSum(gs, list, Entries(gs, root, h));
    }
  }

  // ---- The updates in place ----

  /** cfqg_scale_charge. */
  function ScaleCharge(charge: nat, vfraction: nat): nat
    requires vfraction > 0
  {
    charge * ONE * ONE / vfraction
  }

  /** A smaller share is charged more, and nobody is charged less than the time used. */
  lemma ChargeIsFair(charge: nat, v: nat, v': nat)
    requires 0 < v <= v' <= ONE
    ensures ScaleCharge(charge, v) >= ScaleCharge(charge, v') >= charge * ONE
  {
    DivAntitone(charge * ONE * ONE, v, v');
    DivAntitone(charge * ONE * ONE, v', ONE);
  }

  lemma DivAntitone(x: nat, v: nat, v': nat)
    requires 0 < v <= v'
    ensures x / v >= x / v'
  {
    var p, q := x / v, x / v';
    assert x < (p + 1) * v;
    MulLe(v, v', q);
    CancelLess(q, p + 1, v);
  }

  /** Where the walk of `ServiceTreeAdd` stands: state `gs` at `pos`, on its way to `end`. */
  ghost predicate Climbing(gs: Groups, pos: Id, propagate: bool, end: Groups) {
    && pos in gs && gs[pos].nrActive > 0
    && InvBut(gs, if propagate then Some((pos, false)) else None)
    && Climb(gs, pos, propagate) == end
    && InvBut(end, None) && end.Keys == gs.Keys && end[pos].nrActive > 0
  }

  lemma ClimbStep(gs: Groups, pos: Id, propagate: bool, end: Groups)
    requires Climbing(gs, pos, propagate, end) && gs[pos].parent.Some?
    ensures var p := gs[pos].parent.value;
      var gs' := if propagate then AddLevel(gs, pos, p) else gs;
      && p in gs && p in gs' && pos in gs' && p in end && pos in end && gs'[p].level < gs[pos].level
      && Climbing(gs', p, propagate && gs[p].nrActive == 0, end)
      && gs'[pos].weight == end[pos].weight && gs'[p].childrenWeight == end[p].childrenWeight > 0
      && 0 < end[pos].weight <= MAX_WEIGHT && end[pos].weight <= end[p].childrenWeight
      && end[pos].parent == Some(p) && Climbable(end, pos)
  {
    hide Balanced, AddLevel, NoDup;
    var p := gs[pos].parent.value;
    AddLevelShape(gs, pos, p);
    ClimbFrame(gs, pos, propagate, pos);
    ClimbFrame(gs, pos, propagate, p);
    if propagate {
      AddLevelKeeps(gs, pos, p);
      AddLevelFields(gs, pos, p);
      var gs' := AddLevel(gs, pos, p);
      ClimbFrame(gs', p, gs[p].nrActive == 0, pos);
      ClimbFrame(gs', p, gs[p].nrActive == 0, p);
    }
    ParentLive(end, pos);
  }

  /** The groups of one device. */
  class CfqData {
    var gs: Groups

    constructor (groups: Groups)
      requires Idle(groups)
      ensures gs == groups && Inv(gs)
    {
      gs := groups;
      IdleIsInv(groups);
    }

    /** cfq_group_service_tree_add. */
    method ServiceTreeAdd(id: Id)
      requires InvBut(gs, None) && id in gs && !gs[id].onTree
      modifies this
      ensures gs == TreeAdd(old(gs), id)
    {
      hide InvBut, Climb, ShareUp, Share, Added, Climbing, AddLevel, Climbable, Portion;
      ghost var end := Added(gs, id);
      AddSelfKeeps(gs, id);
      AddedKeeps(gs, id);
      var pos, propagate := id, gs[id].nrActive == 0;
      StartsClimbing(gs, id);
      gs := AddSelf(gs, id);
      ParentLive(end, id);
      ShareStart(end, id);
      var vfr: nat := Portion(ONE, gs[id].leaf, gs[id].childrenWeight);
      FractionOf(ONE, gs[id].leaf, gs[id].childrenWeight);
      while gs[pos].parent.Some?
        invariant pos in gs && pos in end && Climbing(gs, pos, propagate, end)
        invariant id in end && end[id].childrenWeight > 0 && ShareUp(end, pos, vfr) == Share(end, id)
        invariant vfr <= ONE
        decreases if pos in gs then gs[pos].level else 0
      {
        var parent := gs[pos].parent.value;
        ClimbStep(gs, pos, propagate, end);
        if propagate {
          propagate := gs[parent].nrActive == 0;
          gs := AddLevel(gs, pos, parent);
        }
        ShareUpStep(end, pos, vfr);
        FractionOf(vfr, gs[pos].weight, gs[parent].childrenWeight);
        NoOverflow(vfr, gs[pos].weight);
        vfr := Portion(vfr, gs[pos].weight, gs[parent].childrenWeight);
        pos := parent;
      }
      ClimbEnds(gs, pos, propagate, end, vfr);
      gs := WithFraction(gs, id, Max(vfr, 1));
    }

    /** cfq_group_service_tree_del. */
    method ServiceTreeDel(id: Id)
      requires InvBut(gs, None) && id in gs && gs[id].onTree
      modifies this
      ensures gs == TreeDel(old(gs), id)
    {
      hide InvBut, Retire;
      ghost var end := TreeDel(gs, id);
      DelSelfKeeps(gs, id);
      var pos, propagate := id, gs[id].nrActive == 1;
      gs := DelSelf(gs, id);
      while propagate
        invariant Retiring(gs, pos, propagate, end)
        decreases propagate, if pos in gs then gs[pos].level else 0
      {
        var parent := gs[pos].parent;
        WarningIsSilent(gs, pos, Some((pos, true)));
        assert gs[pos].childrenWeight == 0;
        RetireStep(gs, pos, end);
        if parent.None? {
          gs := gs[pos := gs[pos].(vfraction := 0)];
          break;
        }
        propagate := gs[parent.value].nrActive == 1;
        gs := DelLevel(gs, pos, parent.value);
        pos := parent.value;
      }
      RetireEnds(gs, pos, end, propagate);
    }

    /** cfq_group_notify_queue_add. */
    method NotifyQueueAdd(id: Id)
      requires Inv(gs) && id in gs
      modifies this
      ensures Inv(gs) && gs == Apply(old(gs), QueueAdd(id))
    {
      hide InvBut, Added;
      ApplyKeeps(gs, QueueAdd(id));
      WithQueuesKeeps(gs, id, gs[id].nrCfqq + 1);
      gs := WithQueues(gs, id, gs[id].nrCfqq + 1);
      if !gs[id].onTree {
        ServiceTreeAdd(id);
      }
    }

    /** cfq_group_notify_queue_del. */
    method NotifyQueueDel(id: Id)
      requires Inv(gs) && id in gs && gs[id].nrCfqq >= 1
      modifies this
      ensures Inv(gs) && gs == Apply(old(gs), QueueDel(id))
    {
      hide InvBut, Retire;
      ApplyKeeps(gs, QueueDel(id));
      WithQueuesKeeps(gs, id, gs[id].nrCfqq - 1);
      gs := WithQueues(gs, id, gs[id].nrCfqq - 1);
      if gs[id].nrCfqq == 0 {
        ServiceTreeDel(id);
      }
    }

    /** The leave, charge and return of cfq_group_served; `scaled` is what is added to the group's vdisktime. */
    method GroupServed(id: Id, charge: nat) returns (scaled: nat)
      requires Inv(gs) && id in gs && gs[id].nrCfqq >= 1
      modifies this
      ensures Inv(gs) && gs == Apply(old(gs), Served(id))
      ensures old(gs[id].vfraction) > 0 && scaled == ScaleCharge(charge, old(gs[id].vfraction))
      ensures scaled >= charge * ONE
    {
      hide InvBut, Added, Retire, ScaleCharge;
      ApplyKeeps(gs, Served(id));
      WithQueuesKeeps(gs, id, gs[id].nrCfqq);
      TreeDelKeeps(gs, id);
      assert Fraction(gs[id]);
      var vfr := gs[id].vfraction;
      ServiceTreeDel(id);
      scaled := ScaleCharge(charge, vfr);
      ChargeIsFair(charge, vfr, vfr);
      ServiceTreeAdd(id);
    }
  }

  lemma StartsClimbing(gs: Groups, id: Id)
    requires InvBut(gs, None) && id in gs && !gs[id].onTree
    ensures Climbing(AddSelf(gs, id), id, gs[id].nrActive == 0, Added(gs, id))
    ensures AddSelf(gs, id)[id].leaf == Added(gs, id)[id].leaf
    ensures AddSelf(gs, id)[id].childrenWeight == Added(gs, id)[id].childrenWeight
  {
    hide Balanced, Climb;
    AddSelfKeeps(gs, id);
    AddedKeeps(gs, id);
    ClimbFrame(AddSelf(gs, id), id, gs[id].nrActive == 0, id);
  }

  lemma ShareStart(gs: Groups, id: Id)
    requires id in gs && gs[id].childrenWeight > 0
    ensures Share(gs, id) == ShareUp(gs, id, Portion(ONE, gs[id].leaf, gs[id].childrenWeight))
  {
  }

  lemma ShareUpStep(gs: Groups, pos: Id, vfr: nat)
    requires pos in gs && Climbable(gs, pos)
    ensures var p := gs[pos].parent.value; ShareUp(gs, pos, vfr) == ShareUp(gs, p, Portion(vfr, gs[pos].weight, gs[p].childrenWeight))
  {
  }

  lemma NoOverflow(vfr: nat, w: nat)
    requires vfr <= ONE && w <= MAX_WEIGHT
    ensures vfr * w < 0x1_0000_0000
  {
    assert vfr * w <= ONE * w;
  }

  lemma ClimbEnds(gs: Groups, pos: Id, propagate: bool, end: Groups, vfr: nat)
    requires Climbing(gs, pos, propagate, end) && gs[pos].parent.None?
    ensures gs == end && ShareUp(end, pos, vfr) == vfr
  {
  }

  /** Where the walk of `ServiceTreeDel` stands. */
  ghost predicate Retiring(gs: Groups, pos: Id, propagate: bool, end: Groups) {
    && pos in gs && (propagate <==> gs[pos].nrActive == 0)
    && InvBut(gs, if propagate then Some((pos, true)) else None)
    && Retire(gs, pos, propagate) == end
  }

  lemma RetireStep(gs: Groups, pos: Id, end: Groups)
    requires Retiring(gs, pos, true, end)
    ensures gs[pos].parent.None? ==> gs[pos := gs[pos].(vfraction := 0)] == end
    ensures gs[pos].parent.Some? ==>
      var p := gs[pos].parent.value;
      p in gs && gs[p].level < gs[pos].level && Retiring(DelLevel(gs, pos, p), p, gs[p].nrActive == 1, end)
      && DelLevel(gs, pos, p)[p].level < gs[pos].level
  {
    hide Balanced, NoDup;
    if gs[pos].parent.Some? {
      var p := gs[pos].parent.value;
      DelLevelShape(gs, pos, p);
      DelLevelKeeps(gs, pos, p);
    }
  }

  lemma RetireEnds(gs: Groups, pos: Id, end: Groups, propagate: bool)
    requires propagate ==> gs == end
    requires !propagate ==> Retiring(gs, pos, false, end)
    ensures gs == end
  {
  }
}
