/**
 The CFQ group hierarchy: a group that gets its first queue adds its weight along the path to the
 root, a group that loses its last queue takes it off again.  The counters every group keeps are shown
 to equal, in every reachable state, what a look at its children would give.
 */
module GroupWeights {
  import opened Arithmetic
  import opened Lists
  import opened Options

  type Id = nat

  /** One, in fixed point with CFQ_SERVICE_SHIFT bits. */
  const ONE := 4096
  const MAX_WEIGHT := 10000

  /** A cfq_group; `onTree` is whether its node is on the service tree. */
  datatype Group = Group(
    parent: Option<Id>,
    children: seq<Id>,
    level: nat,
    weight: nat,
    newWeight: nat,
    leaf: nat,
    newLeaf: nat,
    onTree: bool,
    nrCfqq: nat,
    nrActive: int,
    childrenWeight: int,
    vfraction: nat)

  type Groups = map<Id, Group>

  predicate WeightsOk(r: Group) {
    0 < r.weight <= MAX_WEIGHT && r.newWeight <= MAX_WEIGHT && 0 < r.leaf <= MAX_WEIGHT && r.newLeaf <= MAX_WEIGHT
  }

  /** Parents and children agree, and levels grow downwards. */
  ghost predicate Shape(gs: Groups) {
    && (forall g :: g in gs ==> NoDup(gs[g].children) && WeightsOk(gs[g]))
    && (forall g, c :: g in gs && c in gs[g].children ==> c in gs && gs[c].parent == Some(g))
    && (forall g :: g in gs && gs[g].parent.Some? ==> Above(gs, gs[g].parent.value, g))
  }

  ghost predicate Above(gs: Groups, p: Id, g: Id)
    requires g in gs
  {
    p in gs && gs[p].level < gs[g].level && g in gs[p].children
  }

  /** While an update climbs the tree, the group it has reached counts for its parent as given here. */
  type Pending = Option<(Id, bool)>

  ghost predicate Active(gs: Groups, g: Id, pending: Pending) {
    g in gs && if pending.Some? && pending.value.0 == g then pending.value.1 else gs[g].nrActive > 0
  }

  ghost function Actives(gs: Groups, cs: seq<Id>, pending: Pending): nat {
    if cs == [] then 0 else (if Active(gs, cs[0], pending) then 1 else 0) + Actives(gs, cs[1..], pending)
  }

  ghost function Weights(gs: Groups, cs: seq<Id>, pending: Pending): nat {
    if cs == [] then 0
    else (if Active(gs, cs[0], pending) then gs[cs[0]].weight else 0) + Weights(gs, cs[1..], pending)
  }

  /** The counters of a group: itself if it is on the service tree, and its active children. */
  ghost predicate Balanced(gs: Groups, g: Id, pending: Pending)
    requires g in gs
  {
    var r := gs[g];
    && r.nrActive == (if r.onTree then 1 else 0) + Actives(gs, r.children, pending)
    && r.childrenWeight == (if r.onTree then r.leaf else 0) + Weights(gs, r.children, pending)
  }

  ghost predicate InvBut(gs: Groups, pending: Pending) {
    Shape(gs) && forall g :: g in gs ==> Balanced(gs, g, pending)
  }

  /** The fixed-point share is set while on the service tree and zero while inactive. */
  ghost predicate Fraction(r: Group) {
    && (r.onTree ==> 1 <= r.vfraction <= ONE)
    && (r.nrActive == 0 ==> r.vfraction == 0)
    && (r.onTree <==> r.nrCfqq > 0)
  }

  ghost predicate Inv(gs: Groups) {
    InvBut(gs, None) && forall g :: g in gs ==> Fraction(gs[g])
  }

  // ---- Sums ----

  ghost predicate SameFor(gs: Groups, gs': Groups, c: Id, pending: Pending, pending': Pending) {
    && c in gs && c in gs'
    && Active(gs', c, pending') == Active(gs, c, pending)
    && (Active(gs, c, pending) ==> gs'[c].weight == gs[c].weight)
  }

  lemma {:induction false} SumsSame(gs: Groups, gs': Groups, cs: seq<Id>, pending: Pending, pending': Pending)
    requires forall c :: c in cs ==> SameFor(gs, gs', c, pending, pending')
    ensures Actives(gs', cs, pending') == Actives(gs, cs, pending)
    ensures Weights(gs', cs, pending') == Weights(gs, cs, pending)
  {
    if cs != [] {
      assert SameFor(gs, gs', cs[0], pending, pending');
      SumsSame(gs, gs', cs[1..], pending, pending');
    }
  }

  /** One child starts to count: the sums grow by one and by its weight. */
  lemma {:induction false} SumsGrow(gs: Groups, gs': Groups, cs: seq<Id>, pos: Id, pending: Pending, pending': Pending)
    requires NoDup(cs) && pos in cs && pos in gs && pos in gs'
    requires forall c :: c in cs && c != pos ==> SameFor(gs, gs', c, pending, pending')
    requires !Active(gs, pos, pending) && Active(gs', pos, pending')
    ensures Actives(gs', cs, pending') == Actives(gs, cs, pending) + 1
    ensures Weights(gs', cs, pending') == Weights(gs, cs, pending) + gs'[pos].weight
  {
    if cs[0] == pos {
      SumsSame(gs, gs', cs[1..], pending, pending');
    } else {
      assert SameFor(gs, gs', cs[0], pending, pending');
      SumsGrow(gs, gs', cs[1..], pos, pending, pending');
    }
  }

  lemma {:induction false} SumsBound(gs: Groups, cs: seq<Id>, c: Id, pending: Pending)
    requires c in cs && Active(gs, c, pending)
    ensures Weights(gs, cs, pending) >= gs[c].weight && Actives(gs, cs, pending) >= 1
  {
    if cs[0] != c {
      SumsBound(gs, cs[1..], c, pending);
    }
  }

  lemma {:induction false} NoneActive(gs: Groups, cs: seq<Id>, pending: Pending)
    requires Actives(gs, cs, pending) == 0
    ensures Weights(gs, cs, pending) == 0
  {
    if cs != [] {
      NoneActive(gs, cs[1..], pending);
    }
  }

  lemma OneUpdateShape(gs: Groups, id: Id, r: Group)
    requires Shape(gs) && id in gs && WeightsOk(r)
    requires r.parent == gs[id].parent && r.children == gs[id].children && r.level == gs[id].level
    ensures Shape(gs[id := r])
  {
    hide NoDup, WeightsOk;
    var gs' := gs[id := r];
    forall g | g in gs' && gs'[g].parent.Some?
      ensures Above(gs', gs'[g].parent.value, g)
    {
      assert Above(gs, gs[g].parent.value, g);
    }
  }

  // ---- Activation ----

  /** cfq_update_group_weight. */
  function UpdateWeight(r: Group): Group {
    if r.newWeight > 0 then r.(weight := r.newWeight, newWeight := 0) else r
  }

  /** cfq_update_group_leaf_weight. */
  function UpdateLeaf(r: Group): Group {
    if r.newLeaf > 0 then r.(leaf := r.newLeaf, newLeaf := 0) else r
  }

  /** The group itself goes on the service tree. */
  function AddSelf(gs: Groups, id: Id): Groups
    requires id in gs
  {
    var r := UpdateLeaf(gs[id]);
    gs[id := r.(onTree := true, nrActive := r.nrActive + 1, childrenWeight := r.childrenWeight + r.leaf)]
  }

  /** One level of the activation: `pos` starts to count for its parent. */
  function AddLevel(gs: Groups, pos: Id, p: Id): Groups
    requires pos in gs && p in gs
  {
    var r, q := UpdateWeight(gs[pos]), gs[p];
    gs[pos := r][p := q.(nrActive := q.nrActive + 1, childrenWeight := q.childrenWeight + r.weight)]
  }

  lemma AddLevelShape(gs: Groups, pos: Id, p: Id)
    requires Shape(gs) && pos in gs && gs[pos].parent == Some(p)
    ensures p in gs && p != pos && gs[p].level < gs[pos].level && pos in gs[p].children
    ensures Shape(AddLevel(gs, pos, p))
  {
    hide NoDup;
    assert Above(gs, p, pos);
    var gs' := AddLevel(gs, pos, p);
    OneUpdateShape(gs, pos, gs'[pos]);
    OneUpdateShape(gs[pos := gs'[pos]], p, gs'[p]);
  }

  /** Activation climbs until it meets a group that was active already. */
  ghost function Climb(gs: Groups, pos: Id, propagate: bool): Groups
    requires Shape(gs) && pos in gs
    decreases gs[pos].level
  {
    if !propagate || gs[pos].parent.None? then gs
    else
      var p := gs[pos].parent.value;
      AddLevelShape(gs, pos, p);
      Climb(AddLevel(gs, pos, p), p, gs[p].nrActive == 0)
  }

  /** What one level of either walk leaves alone: everything but whether `pos` counts for its parent. */
  ghost predicate Elsewhere(gs: Groups, gs': Groups, pos: Id, p: Id, pending: Pending, pending': Pending) {
    && gs'.Keys == gs.Keys
    && (forall g :: g in gs && g != pos ==> SameFor(gs, gs', g, pending, pending'))
    && (forall g :: g in gs && g != p ==> Unmoved(gs[g], gs'[g]))
  }

  ghost predicate Unmoved(r: Group, r': Group) {
    r' == r.(weight := r'.weight, newWeight := r'.newWeight, vfraction := r'.vfraction)
  }

  lemma OthersBalanced(gs: Groups, gs': Groups, pos: Id, p: Id, pending: Pending, pending': Pending, g: Id)
    requires InvBut(gs, pending) && Shape(gs') && Elsewhere(gs, gs', pos, p, pending, pending')
    requires g in gs && g != p && pos in gs && gs[pos].parent == Some(p)
    ensures Balanced(gs', g, pending')
  {
    hide NoDup;
    assert Balanced(gs, g, pending);
    assert Unmoved(gs[g], gs'[g]);
    assert pos !in gs[g].children;
    SumsSame(gs, gs', gs[g].children, pending, pending');
  }

  lemma AddLevelParent(gs: Groups, pos: Id, p: Id, pending': Pending)
    requires InvBut(gs, Some((pos, false))) && pos in gs && gs[pos].parent == Some(p) && gs[pos].nrActive > 0
    requires p in gs && pending' == if gs[p].nrActive == 0 then Some((p, false)) else None
    ensures gs[p].nrActive >= 0
    ensures Elsewhere(gs, AddLevel(gs, pos, p), pos, p, Some((pos, false)), pending')
    ensures Balanced(AddLevel(gs, pos, p), p, pending')
  {
    hide NoDup, Actives, Weights;
    assert Above(gs, p, pos);
    assert Balanced(gs, p, Some((pos, false)));
    SumsGrow(gs, AddLevel(gs, pos, p), gs[p].children, pos, Some((pos, false)), pending');
  }

  lemma AddLevelKeeps(gs: Groups, pos: Id, p: Id)
    requires InvBut(gs, Some((pos, false))) && pos in gs && gs[pos].parent == Some(p) && gs[pos].nrActive > 0
    ensures p in gs && Shape(AddLevel(gs, pos, p))
    ensures InvBut(AddLevel(gs, pos, p), if gs[p].nrActive == 0 then Some((p, false)) else None)
    ensures AddLevel(gs, pos, p)[p].nrActive > 0
  {
    hide Shape, Balanced;
    AddLevelShape(gs, pos, p);
    var gs' := AddLevel(gs, pos, p);
    var pending': Pending := if gs[p].nrActive == 0 then Some((p, false)) else None;
    AddLevelParent(gs, pos, p, pending');
    forall g | g in gs' && g != p
      ensures Balanced(gs', g, pending')
    {
      OthersBalanced(gs, gs', pos, p, Some((pos, false)), pending', g);
    }
  }

  /** A group without a parent counts for nobody, so nothing is pending there. */
  lemma RootSettles(gs: Groups, pos: Id, b: bool)
    requires InvBut(gs, Some((pos, b))) && pos in gs && gs[pos].parent.None?
    ensures InvBut(gs, None)
  {
    hide NoDup, Actives, Weights;
    forall g | g in gs
      ensures Balanced(gs, g, None)
    {
      assert Balanced(gs, g, Some((pos, b)));
      assert pos !in gs[g].children;
      SumsSame(gs, gs, gs[g].children, Some((pos, b)), None);
    }
  }

  lemma {:induction false} ClimbKeeps(gs: Groups, pos: Id, propagate: bool)
    requires InvBut(gs, if propagate then Some((pos, false)) else None)
    requires pos in gs && gs[pos].nrActive > 0
    ensures InvBut(Climb(gs, pos, propagate), None)
    decreases gs[pos].level
  {
    hide NoDup, Balanced, Actives, Weights, AddLevel;
    if propagate {
      if gs[pos].parent.None? {
        RootSettles(gs, pos, false);
      } else {
        var p := gs[pos].parent.value;
        AddLevelShape(gs, pos, p);
        AddLevelKeeps(gs, pos, p);
        AddLevelFields(gs, pos, p);
        ClimbKeeps(AddLevel(gs, pos, p), p, gs[p].nrActive == 0);
      }
    }
  }

  lemma AddLevelFields(gs: Groups, pos: Id, p: Id)
    requires pos in gs && p in gs && p != pos
    ensures AddLevel(gs, pos, p).Keys == gs.Keys
    ensures forall g :: g in gs && g != pos && g != p ==> AddLevel(gs, pos, p)[g] == gs[g]
    ensures Grown(gs[p], AddLevel(gs, pos, p)[p]) && AddLevel(gs, pos, p)[p].weight == gs[p].weight
    ensures Grown(gs[pos], AddLevel(gs, pos, p)[pos]) && Unmoved(gs[pos], AddLevel(gs, pos, p)[pos])
  {
  }

  /** What activation may change in a group: its weight is brought up to date and its counters grow. */
  ghost predicate Grown(r: Group, r': Group) {
    && r' == r.(weight := r'.weight, newWeight := r'.newWeight, nrActive := r'.nrActive, childrenWeight := r'.childrenWeight)
    && r'.nrActive >= r.nrActive
  }

  lemma {:induction false} ClimbFrame(gs: Groups, pos: Id, propagate: bool, g: Id)
    requires Shape(gs) && pos in gs && g in gs
    ensures Shape(Climb(gs, pos, propagate))
    ensures Climb(gs, pos, propagate).Keys == gs.Keys
    ensures Grown(gs[g], Climb(gs, pos, propagate)[g])
    ensures g != pos && gs[g].level >= gs[pos].level ==> Climb(gs, pos, propagate)[g] == gs[g]
    ensures Unmoved(gs[pos], Climb(gs, pos, propagate)[pos])
    decreases gs[pos].level
  {
    hide NoDup, AddLevel;
    if propagate && gs[pos].parent.Some? {
      var p := gs[pos].parent.value;
      AddLevelShape(gs, pos, p);
      AddLevelFields(gs, pos, p);
      var gs' := AddLevel(gs, pos, p);
      ClimbFrame(gs', p, gs[p].nrActive == 0, g);
      ClimbFrame(gs', p, gs[p].nrActive == 0, pos);
    }
  }

  /** An active group has an active parent, which counts it: every division on the way up is defined. */
  lemma ParentLive(gs: Groups, pos: Id)
    requires InvBut(gs, None) && pos in gs && gs[pos].nrActive > 0
    ensures gs[pos].childrenWeight > 0 && gs[pos].childrenWeight >= if gs[pos].onTree then gs[pos].leaf else 0
    ensures gs[pos].parent.Some? ==>
      && gs[pos].parent.value in gs && gs[gs[pos].parent.value].nrActive > 0
      && gs[gs[pos].parent.value].level < gs[pos].level
      && gs[gs[pos].parent.value].childrenWeight >= gs[pos].weight > 0
  {
    hide NoDup;
    assert Balanced(gs, pos, None);
    if !gs[pos].onTree {
      SomeActive(gs, gs[pos].children);
    }
    if gs[pos].parent.Some? {
      var p := gs[pos].parent.value;
      assert Above(gs, p, pos);
      assert Balanced(gs, p, None);
      SumsBound(gs, gs[p].children, pos, None);
    }
  }

  lemma {:induction false} SomeActive(gs: Groups, cs: seq<Id>)
    requires Shape(gs) && Actives(gs, cs, None) > 0
    ensures Weights(gs, cs, None) > 0
  {
    hide NoDup;
    if !Active(gs, cs[0], None) {
      SomeActive(gs, cs[1..]);
    }
  }

  /** There is a level above with something to divide by: for an active group, `ParentLive` shows, whenever it has a parent. */
  predicate Climbable(gs: Groups, pos: Id)
    requires pos in gs
  {
    && gs[pos].parent.Some? && gs[pos].parent.value in gs
    && gs[gs[pos].parent.value].level < gs[pos].level && gs[gs[pos].parent.value].childrenWeight > 0
  }

  /** What `w` of `total` gets of `x`, rounded down. */
  function Portion(x: nat, w: nat, total: int): nat
    requires total > 0
  {
    x * w / total
  }

  /** The walk to the root that compounds a share: at each level times weight over the sum of weights. */
  function ShareUp(gs: Groups, pos: Id, vfr: nat): nat
    requires pos in gs
    decreases gs[pos].level
  {
    if !Climbable(gs, pos) then vfr
    else
      var p := gs[pos].parent.value;
      ShareUp(gs, p, Portion(vfr, gs[pos].weight, gs[p].childrenWeight))
  }

  /** The share of a group on the service tree. */
  function Share(gs: Groups, id: Id): nat
    requires id in gs && gs[id].childrenWeight > 0
  {
    ShareUp(gs, id, Portion(ONE, gs[id].leaf, gs[id].childrenWeight))
  }

  lemma FractionOf(x: nat, w: nat, total: int)
    requires 0 < total && w <= total
    ensures Portion(x, w, total) <= x
  {
    assert x * w <= x * total;
    assert x * w / total <= x * total / total;
  }

  lemma {:induction false} ShareUpBound(gs: Groups, pos: Id, vfr: nat)
    requires InvBut(gs, None) && pos in gs && gs[pos].nrActive > 0
    ensures ShareUp(gs, pos, vfr) <= vfr
    decreases gs[pos].level
  {
    hide InvBut;
    ParentLive(gs, pos);
    if gs[pos].parent.Some? {
      var p := gs[pos].parent.value;
      FractionOf(vfr, gs[pos].weight, gs[p].childrenWeight);
      ShareUpBound(gs, p, Portion(vfr, gs[pos].weight, gs[p].childrenWeight));
    }
  }

  lemma OneUpdateBalanced(gs: Groups, id: Id, r: Group, pending: Pending, pending': Pending, g: Id)
    requires InvBut(gs, pending) && id in gs && g in gs && g != id
    requires forall x :: x in gs ==> SameFor(gs, gs[id := r], x, pending, pending')
    ensures Balanced(gs[id := r], g, pending')
  {
    hide NoDup, Actives, Weights, WeightsOk, Above;
    assert Balanced(gs, g, pending);
    SumsSame(gs, gs[id := r], gs[g].children, pending, pending');
  }

  /** A change in one group that its parent does not notice. */
  lemma OneUpdateKeeps(gs: Groups, id: Id, r: Group, pending: Pending, pending': Pending)
    requires InvBut(gs, pending) && id in gs && WeightsOk(r)
    requires r.parent == gs[id].parent && r.children == gs[id].children && r.level == gs[id].level
    requires forall x :: x in gs ==> SameFor(gs, gs[id := r], x, pending, pending')
    requires r.nrActive - gs[id].nrActive == (if r.onTree then 1 else 0) - (if gs[id].onTree then 1 else 0)
    requires r.childrenWeight - gs[id].childrenWeight == (if r.onTree then r.leaf else 0) - (if gs[id].onTree then gs[id].leaf else 0)
    ensures InvBut(gs[id := r], pending')
  {
    hide Shape, Actives, Weights, SameFor, WeightsOk;
    OneUpdateShape(gs, id, r);
    assert Balanced(gs, id, pending);
    OwnSums(gs, id, r, pending, pending');
    forall g | g in gs && g != id
      ensures Balanced(gs[id := r], g, pending')
    {
      OneUpdateBalanced(gs, id, r, pending, pending', g);
    }
  }

  lemma OwnSums(gs: Groups, id: Id, r: Group, pending: Pending, pending': Pending)
    requires Shape(gs) && id in gs
    requires forall x :: x in gs ==> SameFor(gs, gs[id := r], x, pending, pending')
    ensures Actives(gs[id := r], gs[id].children, pending') == Actives(gs, gs[id].children, pending)
    ensures Weights(gs[id := r], gs[id].children, pending') == Weights(gs, gs[id].children, pending)
  {
    hide NoDup, Actives, Weights;
    SumsSame(gs, gs[id := r], gs[id].children, pending, pending');
  }

  lemma AddSelfKeeps(gs: Groups, id: Id)
    requires InvBut(gs, None) && id in gs && !gs[id].onTree
    ensures InvBut(AddSelf(gs, id), if gs[id].nrActive == 0 then Some((id, false)) else None)
    ensures AddSelf(gs, id)[id].nrActive > 0 && AddSelf(gs, id)[id].onTree
  {
    hide NoDup, Actives, Weights;
    var pending: Pending := if gs[id].nrActive == 0 then Some((id, false)) else None;
    assert Balanced(gs, id, None);
    OneUpdateKeeps(gs, id, AddSelf(gs, id)[id], None, pending);
  }

  /** The tree and counters after cfq_group_service_tree_add. */
  ghost function Added(gs: Groups, id: Id): Groups
    requires InvBut(gs, None) && id in gs && !gs[id].onTree
  {
    AddSelfKeeps(gs, id);
    Climb(AddSelf(gs, id), id, gs[id].nrActive == 0)
  }

  function WithFraction(gs: Groups, id: Id, vfr: nat): Groups
    requires id in gs
  {
    gs[id := gs[id].(vfraction := vfr)]
  }

  lemma AddedKeeps(gs: Groups, id: Id)
    requires InvBut(gs, None) && id in gs && !gs[id].onTree
    ensures InvBut(Added(gs, id), None)
    ensures Added(gs, id).Keys == gs.Keys
    ensures Added(gs, id)[id].onTree && Added(gs, id)[id].nrActive > 0 && Added(gs, id)[id].childrenWeight > 0
    ensures Added(gs, id)[id].nrCfqq == gs[id].nrCfqq
    ensures forall g :: g in gs && g != id ==> Grown(gs[g], Added(gs, id)[g])
    ensures Share(Added(gs, id), id) <= ONE
  {
    hide InvBut, Climb, Share;
    AddSelfKeeps(gs, id);
    var gs1 := AddSelf(gs, id);
    ClimbKeeps(gs1, id, gs[id].nrActive == 0);
    assert Shape(gs1) by {
      AddedShape(gs, id);
    }
    forall g | g in gs1
      ensures Added(gs, id).Keys == gs1.Keys && Grown(gs1[g], Added(gs, id)[g])
    {
      ClimbFrame(gs1, id, gs[id].nrActive == 0, g);
    }
    ParentLive(Added(gs, id), id);
    ShareBound(Added(gs, id), id);
  }

  lemma AddedShape(gs: Groups, id: Id)
    requires InvBut(gs, None) && id in gs && !gs[id].onTree
    ensures Shape(AddSelf(gs, id))
  {
    AddSelfKeeps(gs, id);
  }

  lemma ShareBound(gs: Groups, id: Id)
    requires InvBut(gs, None) && id in gs && gs[id].onTree && gs[id].nrActive > 0 && gs[id].childrenWeight > 0
    ensures Share(gs, id) <= ONE
  {
    hide InvBut;
    ParentLive(gs, id);
    FractionOf(ONE, gs[id].leaf, gs[id].childrenWeight);
    ShareUpBound(gs, id, Portion(ONE, gs[id].leaf, gs[id].childrenWeight));
  }

  /** Fields no counter depends on. */
  ghost predicate Cosmetic(r: Group, r': Group) {
    && r' == r.(newWeight := r'.newWeight, newLeaf := r'.newLeaf, nrCfqq := r'.nrCfqq, vfraction := r'.vfraction)
    && r'.newWeight <= MAX_WEIGHT && r'.newLeaf <= MAX_WEIGHT
  }

  lemma CosmeticKeeps(gs: Groups, id: Id, r: Group, pending: Pending)
    requires InvBut(gs, pending) && id in gs && Cosmetic(gs[id], r)
    ensures InvBut(gs[id := r], pending)
  {
    hide NoDup, Balanced;
    OneUpdateKeeps(gs, id, r, pending, pending);
  }

  // ---- Deactivation ----

  /** The group itself leaves the service tree. */
  function DelSelf(gs: Groups, id: Id): Groups
    requires id in gs
  {
    var r := gs[id];
    gs[id := r.(onTree := false, nrActive := r.nrActive - 1, childrenWeight := r.childrenWeight - r.leaf)]
  }

  /** One level of the deactivation: `pos` no longer counts for its parent. */
  function DelLevel(gs: Groups, pos: Id, p: Id): Groups
    requires pos in gs && p in gs
  {
    var q := gs[p];
    gs[pos := gs[pos].(vfraction := 0)][p := q.(nrActive := q.nrActive - 1, childrenWeight := q.childrenWeight - gs[pos].weight)]
  }

  lemma DelLevelShape(gs: Groups, pos: Id, p: Id)
    requires Shape(gs) && pos in gs && gs[pos].parent == Some(p)
    ensures p in gs && p != pos && gs[p].level < gs[pos].level && pos in gs[p].children
    ensures Shape(DelLevel(gs, pos, p))
  {
    hide NoDup;
    assert Above(gs, p, pos);
    var gs' := DelLevel(gs, pos, p);
    OneUpdateShape(gs, pos, gs'[pos]);
    OneUpdateShape(gs[pos := gs'[pos]], p, gs'[p]);
  }

  /** Deactivation climbs while it leaves inactive groups behind. */
  ghost function Retire(gs: Groups, pos: Id, propagate: bool): Groups
    requires Shape(gs) && pos in gs
    decreases gs[pos].level
  {
    if !propagate then gs
    else if gs[pos].parent.None? then gs[pos := gs[pos].(vfraction := 0)]
    else
      var p := gs[pos].parent.value;
      DelLevelShape(gs, pos, p);
      Retire(DelLevel(gs, pos, p), p, gs[p].nrActive == 1)
  }

  lemma DelLevelParent(gs: Groups, pos: Id, p: Id, pending': Pending)
    requires InvBut(gs, Some((pos, true))) && pos in gs && gs[pos].parent == Some(p)
    requires p in gs && pending' == if gs[p].nrActive == 1 then Some((p, true)) else None
    requires gs[pos].nrActive == 0
    ensures gs[p].nrActive >= 1
    ensures Elsewhere(gs, DelLevel(gs, pos, p), pos, p, Some((pos, true)), pending')
    ensures Balanced(DelLevel(gs, pos, p), p, pending')
  {
    hide NoDup, Actives, Weights;
    assert Above(gs, p, pos);
    assert Balanced(gs, p, Some((pos, true)));
    SumsBound(gs, gs[p].children, pos, Some((pos, true)));
    SumsGrow(DelLevel(gs, pos, p), gs, gs[p].children, pos, pending', Some((pos, true)));
  }

  lemma DelLevelKeeps(gs: Groups, pos: Id, p: Id)
    requires InvBut(gs, Some((pos, true))) && pos in gs && gs[pos].parent == Some(p) && gs[pos].nrActive == 0
    ensures p in gs && Shape(DelLevel(gs, pos, p)) && gs[p].nrActive >= 1
    ensures InvBut(DelLevel(gs, pos, p), if gs[p].nrActive == 1 then Some((p, true)) else None)
  {
    hide Shape, Balanced;
    DelLevelShape(gs, pos, p);
    var gs' := DelLevel(gs, pos, p);
    var pending': Pending := if gs[p].nrActive == 1 then Some((p, true)) else None;
    DelLevelParent(gs, pos, p, pending');
    forall g | g in gs' && g != p
      ensures Balanced(gs', g, pending')
    {
      OthersBalanced(gs, gs', pos, p, Some((pos, true)), pending', g);
    }
  }

  /** The warning in the loop cannot trigger: a group with nothing active has no weight below it. */
  lemma WarningIsSilent(gs: Groups, pos: Id, pending: Pending)
    requires InvBut(gs, pending) && pos in gs && gs[pos].nrActive == 0
    ensures gs[pos].childrenWeight == 0
  {
    assert Balanced(gs, pos, pending);
    NoneActive(gs, gs[pos].children, pending);
  }

  lemma {:induction false} RetireKeeps(gs: Groups, pos: Id, propagate: bool)
    requires InvBut(gs, if propagate then Some((pos, true)) else None)
    requires pos in gs && (propagate <==> gs[pos].nrActive == 0)
    ensures InvBut(Retire(gs, pos, propagate), None)
    decreases gs[pos].level
  {
    hide NoDup, Balanced, Actives, Weights;
    if propagate {
      if gs[pos].parent.None? {
        RootSettles(gs, pos, true);
        CosmeticKeeps(gs, pos, gs[pos].(vfraction := 0), None);
      } else {
        var p := gs[pos].parent.value;
        DelLevelShape(gs, pos, p);
        DelLevelKeeps(gs, pos, p);
        RetireKeeps(DelLevel(gs, pos, p), p, gs[p].nrActive == 1);
      }
    }
  }

  /** What deactivation may change in a group; one that ends inactive ends with no share. */
  ghost predicate Shrunk(r: Group, r': Group) {
    && r' == r.(nrActive := r'.nrActive, childrenWeight := r'.childrenWeight, vfraction := r'.vfraction)
    && (r'.vfraction == r.vfraction || r'.nrActive == 0)
    && (r'.nrActive == 0 ==> r'.vfraction == 0 || r' == r)
  }

  lemma {:induction false} RetireFrame(gs: Groups, pos: Id, propagate: bool, g: Id)
    requires InvBut(gs, if propagate then Some((pos, true)) else None)
    requires pos in gs && g in gs && (propagate <==> gs[pos].nrActive == 0)
    ensures Retire(gs, pos, propagate).Keys == gs.Keys
    ensures Shrunk(gs[g], Retire(gs, pos, propagate)[g])
    ensures g != pos && gs[g].level >= gs[pos].level ==> Retire(gs, pos, propagate)[g] == gs[g]
    ensures Retire(gs, pos, propagate)[pos] == gs[pos].(vfraction := if propagate then 0 else gs[pos].vfraction)
    decreases gs[pos].level
  {
    hide NoDup, Balanced, Actives, Weights;
    if propagate && gs[pos].parent.Some? {
      var p := gs[pos].parent.value;
      DelLevelShape(gs, pos, p);
      DelLevelKeeps(gs, pos, p);
      var gs' := DelLevel(gs, pos, p);
      RetireFrame(gs', p, gs[p].nrActive == 1, g);
      RetireFrame(gs', p, gs[p].nrActive == 1, pos);
    }
  }

  lemma DelSelfKeeps(gs: Groups, id: Id)
    requires InvBut(gs, None) && id in gs && gs[id].onTree
    ensures gs[id].nrActive >= 1
    ensures InvBut(DelSelf(gs, id), if gs[id].nrActive == 1 then Some((id, true)) else None)
  {
    hide NoDup, Actives, Weights;
    var pending: Pending := if gs[id].nrActive == 1 then Some((id, true)) else None;
    assert Balanced(gs, id, None);
    OneUpdateKeeps(gs, id, DelSelf(gs, id)[id], None, pending);
  }

  /** cfq_group_service_tree_del. */
  ghost function TreeDel(gs: Groups, id: Id): Groups
    requires InvBut(gs, None) && id in gs && gs[id].onTree
  {
    DelSelfKeeps(gs, id);
    Retire(DelSelf(gs, id), id, gs[id].nrActive == 1)
  }

  lemma TreeDelKeeps(gs: Groups, id: Id)
    requires InvBut(gs, None) && id in gs && gs[id].onTree
    ensures InvBut(TreeDel(gs, id), None)
    ensures TreeDel(gs, id).Keys == gs.Keys
    ensures forall g :: g in gs && g != id ==> Shrunk(gs[g], TreeDel(gs, id)[g])
    ensures !TreeDel(gs, id)[id].onTree && TreeDel(gs, id)[id].nrCfqq == gs[id].nrCfqq
    ensures TreeDel(gs, id)[id].nrActive == 0 ==> TreeDel(gs, id)[id].vfraction == 0
  {
    hide InvBut, Retire;
    DelSelfKeeps(gs, id);
    var gs1 := DelSelf(gs, id);
    RetireKeeps(gs1, id, gs[id].nrActive == 1);
    forall g | g in gs1
      ensures TreeDel(gs, id).Keys == gs1.Keys && Shrunk(gs1[g], TreeDel(gs, id)[g])
    {
      RetireFrame(gs1, id, gs[id].nrActive == 1, g);
    }
    RetireFrame(gs1, id, gs[id].nrActive == 1, id);
  }

  // ---- Runs ----

  datatype Event =
    | QueueAdd(id: Id)
    | QueueDel(id: Id)
    | Served(id: Id)
    | SetWeight(id: Id, w: nat)
    | SetLeafWeight(id: Id, w: nat)

  /** What the callers guarantee: a queue that leaves was there, only a group with queues is served. */
  predicate Enabled(gs: Groups, e: Event) {
    && e.id in gs
    && match e {
      case QueueAdd(_) => true
      case QueueDel(id) => gs[id].nrCfqq >= 1
      case Served(id) => gs[id].nrCfqq >= 1
      case SetWeight(_, w) => 0 < w <= MAX_WEIGHT
      case SetLeafWeight(_, w) => 0 < w <= MAX_WEIGHT
    }
  }

  /** cfq_group_service_tree_add: the group is put on the tree and its share is installed. */
  ghost function TreeAdd(gs: Groups, id: Id): Groups
    requires InvBut(gs, None) && id in gs && !gs[id].onTree
  {
    AddedKeeps(gs, id);
    WithFraction(Added(gs, id), id, Max(Share(Added(gs, id), id), 1))
  }

  ghost predicate FractionsBut(gs: Groups, id: Id) {
    forall g :: g in gs && g != id ==> Fraction(gs[g])
  }

  lemma TreeAddKeeps(gs: Groups, id: Id)
    requires InvBut(gs, None) && id in gs && !gs[id].onTree && FractionsBut(gs, id) && gs[id].nrCfqq > 0
    ensures Inv(TreeAdd(gs, id)) && TreeAdd(gs, id).Keys == gs.Keys
  {
    hide InvBut, Added, Share, Fraction;
    AddedKeeps(gs, id);
    var gs1 := Added(gs, id);
    CosmeticKeeps(gs1, id, gs1[id].(vfraction := Max(Share(gs1, id), 1)), None) by {
      CosmeticWeights(gs1, id);
    }
    forall g | g in gs
      ensures Fraction(TreeAdd(gs, id)[g])
    {
      if g != id {
        assert Fraction(gs[g]);
        GrownFraction(gs[g], gs1[g]) by { CountersPositive(gs, g); }
      } else {
        FreshFraction(TreeAdd(gs, id)[id]);
      }
    }
  }

  lemma FreshFraction(r: Group)
    requires r.onTree && 1 <= r.vfraction <= ONE && r.nrActive > 0 && r.nrCfqq > 0
    ensures Fraction(r)
  {
  }

  lemma GrownFraction(r: Group, r': Group)
    requires Fraction(r) && Grown(r, r') && r.nrActive >= 0
    ensures Fraction(r')
  {
  }

  lemma CosmeticWeights(gs: Groups, id: Id)
    requires InvBut(gs, None) && id in gs
    ensures WeightsOk(gs[id])
  {
  }

  lemma CountersPositive(gs: Groups, g: Id)
    requires InvBut(gs, None) && g in gs
    ensures gs[g].nrActive >= 0
  {
    assert Balanced(gs, g, None);
  }

  lemma TreeDelFractions(gs: Groups, id: Id)
    requires InvBut(gs, None) && id in gs && gs[id].onTree && FractionsBut(gs, id)
    ensures TreeDel(gs, id).Keys == gs.Keys && FractionsBut(TreeDel(gs, id), id)
    ensures TreeDel(gs, id)[id].nrCfqq == 0 ==> Fraction(TreeDel(gs, id)[id])
  {
    hide InvBut, TreeDel;
    TreeDelKeeps(gs, id);
    forall g | g in gs && g != id
      ensures Fraction(TreeDel(gs, id)[g])
    {
      assert Fraction(gs[g]);
      OnTreeIsActive(TreeDel(gs, id), g);
    }
  }

  lemma OnTreeIsActive(gs: Groups, g: Id)
    requires InvBut(gs, None) && g in gs
    ensures gs[g].onTree ==> gs[g].nrActive > 0
  {
    assert Balanced(gs, g, None);
  }

  function WithQueues(gs: Groups, id: Id, n: nat): Groups
    requires id in gs
  {
    gs[id := gs[id].(nrCfqq := n)]
  }

  lemma WithQueuesKeeps(gs: Groups, id: Id, n: nat)
    requires Inv(gs) && id in gs
    ensures InvBut(WithQueues(gs, id, n), None) && FractionsBut(WithQueues(gs, id, n), id)
    ensures (n > 0 <==> gs[id].onTree) ==> Inv(WithQueues(gs, id, n))
    ensures gs[id].onTree <==> gs[id].nrCfqq > 0
  {
    hide Balanced;
    assert Fraction(gs[id]);
    CosmeticKeeps(gs, id, gs[id].(nrCfqq := n), None);
  }

  /** cfq_group_notify_queue_add. */
  ghost function QueueAdded(gs: Groups, id: Id): Groups
    requires Inv(gs) && id in gs
  {
    var gs1 := WithQueues(gs, id, gs[id].nrCfqq + 1);
    WithQueuesKeeps(gs, id, gs[id].nrCfqq + 1);
    if gs[id].onTree then gs1 else TreeAdd(gs1, id)
  }

  /** cfq_group_notify_queue_del. */
  ghost function QueueDeleted(gs: Groups, id: Id): Groups
    requires Inv(gs) && id in gs && gs[id].nrCfqq >= 1
  {
    var gs1 := WithQueues(gs, id, gs[id].nrCfqq - 1);
    WithQueuesKeeps(gs, id, gs[id].nrCfqq - 1);
    if gs1[id].nrCfqq > 0 then gs1 else TreeDel(gs1, id)
  }

  /** The part of cfq_group_served that leaves the service tree and returns to it. */
  ghost function ServedOnce(gs: Groups, id: Id): Groups
    requires Inv(gs) && id in gs && gs[id].nrCfqq >= 1
  {
    WithQueuesKeeps(gs, id, gs[id].nrCfqq);
    TreeDelKeeps(gs, id);
    TreeAdd(TreeDel(gs, id), id)
  }

  ghost function Apply(gs: Groups, e: Event): Groups
    requires Inv(gs) && Enabled(gs, e)
  {
    match e
    case QueueAdd(id) => QueueAdded(gs, id)
    case QueueDel(id) => QueueDeleted(gs, id)
    case Served(id) => ServedOnce(gs, id)
    case SetWeight(id, w) => gs[id := gs[id].(newWeight := w)]
    case SetLeafWeight(id, w) => gs[id := gs[id].(newLeaf := w)]
  }

  lemma ApplyKeeps(gs: Groups, e: Event)
    requires Inv(gs) && Enabled(gs, e)
    ensures Inv(Apply(gs, e)) && Apply(gs, e).Keys == gs.Keys
  {
    hide InvBut, TreeAdd, TreeDel;
    match e
    case QueueAdd(id) =>
      WithQueuesKeeps(gs, id, gs[id].nrCfqq + 1);
      if !gs[id].onTree {
        TreeAddKeeps(WithQueues(gs, id, gs[id].nrCfqq + 1), id);
      }
    case QueueDel(id) =>
      WithQueuesKeeps(gs, id, gs[id].nrCfqq - 1);
      if gs[id].nrCfqq == 1 {
        var gs1 := WithQueues(gs, id, 0);
        TreeDelKeeps(gs1, id);
        TreeDelFractions(gs1, id);
      }
    case Served(id) =>
      WithQueuesKeeps(gs, id, gs[id].nrCfqq);
      TreeDelKeeps(gs, id);
      TreeDelFractions(gs, id);
      TreeAddKeeps(TreeDel(gs, id), id);
    case SetWeight(id, w) =>
      CosmeticWeights(gs, id);
      CosmeticKeeps(gs, id, gs[id].(newWeight := w), None);
    case SetLeafWeight(id, w) =>
      CosmeticWeights(gs, id);
      CosmeticKeeps(gs, id, gs[id].(newLeaf := w), None);
  }

  /** A group hierarchy as it is set up: nothing queued, nothing active. */
  ghost predicate Idle(gs: Groups) {
    Shape(gs) && forall g :: g in gs ==>
      !gs[g].onTree && gs[g].nrCfqq == 0 && gs[g].nrActive == 0 && gs[g].childrenWeight == 0 && gs[g].vfraction == 0
  }

  lemma {:induction false} IdleSums(gs: Groups, cs: seq<Id>)
    requires forall c :: c in cs ==> c in gs && gs[c].nrActive == 0
    ensures Actives(gs, cs, None) == 0 && Weights(gs, cs, None) == 0
  {
    if cs != [] {
      IdleSums(gs, cs[1..]);
    }
  }

  lemma IdleIsInv(gs: Groups)
    requires Idle(gs)
    ensures Inv(gs)
  {
    hide NoDup;
    forall g | g in gs
      ensures Balanced(gs, g, None)
    {
      IdleSums(gs, gs[g].children);
    }
  }

  ghost predicate IsRun(states: seq<Groups>, events: seq<Event>) {
    && |states| == |events| + 1
    && Idle(states[0])
    && forall i :: 0 <= i < |events| ==>
      Inv(states[i]) ==> Enabled(states[i], events[i]) && states[i + 1] == Apply(states[i], events[i])
  }

  /** In every state of every run the counters equal the sums over the children, and shares are in range. */
  lemma {:induction false} RunInv(states: seq<Groups>, events: seq<Event>, i: nat)
    requires IsRun(states, events) && i < |states|
    ensures Inv(states[i])
  {
    if i == 0 {
      IdleIsInv(states[0]);
    } else {
      var j := i - 1;
      RunInv(states, events, j);
      assert Enabled(states[j], events[j]) && states[j + 1] == Apply(states[j], events[j]);
      ApplyKeeps(states[j], events[j]);
    }
  }

  /** Two hierarchies that agree on weights and on which groups have queues. */
  ghost predicate SameSetup(gs: Groups, gs': Groups) {
    gs.Keys == gs'.Keys && forall g :: g in gs ==>
      gs'[g].children == gs[g].children && gs'[g].onTree == gs[g].onTree && gs'[g].weight == gs[g].weight && gs'[g].leaf == gs[g].leaf
  }

  /**
   The counters are determined by which groups have queues: whatever the order in which groups came
   and went, the same set of busy groups (at the same weights) gives the same counters everywhere.
   */
  lemma {:induction false} OrderDoesNotMatter(gs: Groups, gs': Groups, g: Id, h: nat)
    requires InvBut(gs, None) && InvBut(gs', None) && SameSetup(gs, gs') && g in gs
    requires forall x :: x in gs ==> gs[x].level <= h
    ensures gs'[g].nrActive == gs[g].nrActive && gs'[g].childrenWeight == gs[g].childrenWeight
    decreases h - gs[g].level
  {
    hide NoDup, Actives, Weights;
    assert Balanced(gs, g, None) && Balanced(gs', g, None);
    forall c | c in gs[g].children
      ensures SameFor(gs, gs', c, None, None)
    {
      assert Above(gs, g, c);
      OrderDoesNotMatter(gs, gs', c, h);
    }
    SumsSame(gs, gs', gs[g].children, None, None);
  }

  // ---- When weight changes take effect ----

  lemma {:induction false} ClimbWeights(gs: Groups, pos: Id, propagate: bool, g: Id)
    requires InvBut(gs, if propagate then Some((pos, false)) else None)
    requires pos in gs && gs[pos].nrActive > 0 && g in gs
    ensures Climb(gs, pos, propagate).Keys == gs.Keys
    ensures var r, r' := gs[g], Climb(gs, pos, propagate)[g];
      var starts := if g == pos then propagate else r.nrActive == 0 && r'.nrActive > 0;
      r'.weight == if starts && r.parent.Some? then UpdateWeight(r).weight else r.weight
    decreases gs[pos].level
  {
    hide NoDup, Balanced, Actives, Weights;
    ClimbFrame(gs, pos, propagate, g);
    if propagate && gs[pos].parent.Some? {
      var p := gs[pos].parent.value;
      AddLevelShape(gs, pos, p);
      AddLevelKeeps(gs, pos, p);
      ParentCount(gs, pos, p);
      var gs' := AddLevel(gs, pos, p);
      ClimbFrame(gs', p, gs[p].nrActive == 0, g);
      ClimbFrame(gs', p, gs[p].nrActive == 0, pos);
      ClimbWeights(gs', p, gs[p].nrActive == 0, g);
    }
  }

  lemma ParentCount(gs: Groups, pos: Id, p: Id)
    requires InvBut(gs, Some((pos, false))) && p in gs
    ensures gs[p].nrActive >= 0
  {
    assert Balanced(gs, p, Some((pos, false)));
  }

  /**
   A pending weight takes effect exactly when its group, not being the root, becomes active, and never
   while the group already counts for its parent.
   */
  lemma WeightChangesOnActivation(gs: Groups, id: Id, g: Id)
    requires InvBut(gs, None) && id in gs && !gs[id].onTree && g in gs
    ensures TreeAdd(gs, id).Keys == gs.Keys
    ensures var r, r' := gs[g], TreeAdd(gs, id)[g];
      r'.weight == if r.nrActive == 0 && r'.nrActive > 0 && r.parent.Some? && r.newWeight > 0 then r.newWeight else r.weight
    ensures var r, r' := gs[id], TreeAdd(gs, id)[id];
      r'.leaf == (if r.newLeaf > 0 then r.newLeaf else r.leaf) && r'.newLeaf == 0
  {
    hide InvBut, Climb, Share;
    AddSelfKeeps(gs, id);
    AddedKeeps(gs, id);
    CountersPositive(gs, id);
    ClimbWeights(AddSelf(gs, id), id, gs[id].nrActive == 0, g);
    AddedShape(gs, id);
    ClimbFrame(AddSelf(gs, id), id, gs[id].nrActive == 0, id);
  }

  lemma {:induction false} ShareUpCosmetic(gs: Groups, id: Id, vfr: nat, pos: Id, x: nat)
    requires pos in gs && id in gs
    ensures ShareUp(WithFraction(gs, id, vfr), pos, x) == ShareUp(gs, pos, x)
    decreases gs[pos].level
  {
    if Climbable(gs, pos) {
      var p := gs[pos].parent.value;
      ShareUpCosmetic(gs, id, vfr, p, Portion(x, gs[pos].weight, gs[p].childrenWeight));
    }
  }

  /** What is installed is the share of the group in the tree it has just joined, or 1 if that rounds to nothing. */
  lemma InstalledIsShare(gs: Groups, id: Id)
    requires InvBut(gs, None) && id in gs && !gs[id].onTree
    ensures var gs' := TreeAdd(gs, id);
      id in gs' && gs'[id].childrenWeight > 0 && gs'[id].vfraction == if Share(gs', id) == 0 then 1 else Share(gs', id)
  {
    hide InvBut, Added, ShareUp;
    AddedKeeps(gs, id);
    var a := Added(gs, id);
    ShareUpCosmetic(a, id, Max(Share(a, id), 1), id, Portion(ONE, a[id].leaf, a[id].childrenWeight));
  }
}
