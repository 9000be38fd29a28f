/** When the elevator merges a request that is inserted, and what merges cover. */
module ElevatorMerging {
  import opened Lists
  import opened Options
  import opened ElevatorHash

  /** Request `y` is in the index and ends where `x` starts. */
  ghost predicate Candidate(s: State, y: Id, x: Id) {
    x in s.reqs && Fits(s, y, s.reqs[x].pos) && s.reqs[y].hashed
  }

  /** There is nothing to merge `x` with, or something that may not be merged with. */
  ghost predicate Stuck(s: State, may: May, x: Id) {
    (exists y :: Candidate(s, y, x)) ==> exists y :: Candidate(s, y, x) && !CanMerge(s, may, y, x)
  }

  lemma DroppedCandidates(s: State, t: State, x: Id)
    requires Dropped(s, t)
    ensures forall y :: Candidate(s, y, x) <==> Candidate(t, y, x)
  {
    forall y ensures Candidate(s, y, x) <==> Candidate(t, y, x) {
      if y in s.reqs && x in s.reqs {
        assert s.reqs[y].mergeable ==> t.reqs[y] == s.reqs[y];
      }
    }
  }

  /** One round of the loop: a merge, or a request that is stuck. */
  lemma CascadeRound(s: State, h: Hash, may: May, x: Id) returns (t: State, y: Id)
    requires Inv(s, h) && x in s.reqs
    ensures Inv(t, h) && Dropped(s, t)
    ensures Cascade(s, h, may, x).1 ==>
              && Candidate(s, y, x) && CanMerge(t, may, y, x) && HashOk(h) && |t.buckets| == BUCKETS && y != x
              && Inv(Merged(t, h, y, x), h) && y in Merged(t, h, y, x).reqs && |Merged(t, h, y, x).reqs| < |s.reqs|
              && Cascade(s, h, may, x).0 == Cascade(Merged(t, h, y, x), h, may, y).0
    ensures !Cascade(s, h, may, x).1 ==> Cascade(s, h, may, x).0 == t && Stuck(t, may, x)
  {
    hide Inv, Merged, Find;
    HashBound(s, h);
    FindIsScan(s, h, s.reqs[x].pos);
    var (t', found) := Find(s, h, s.reqs[x].pos);
    t, y := t', x;
    HashBound(t, h);
    DroppedCandidates(s, t, x);
    if found.Some? {
      y := found.value;
      assert Candidate(s, y, x);
      if CanMerge(t, may, y, x) {
        PositiveSize(t, h, y);
        MergedKeeps(t, h, y, x);
        MergedHas(t, h, y, x);
        SameCount(s.reqs, t.reqs);
      }
    } else {
      assert forall z :: !Candidate(s, z, x);
    }
  }

  /**
   The cascade goes on until it is stuck: what is left of `x` is a request that ends where `x` ended, starts no
   later, and cannot be merged any further; it is `x` itself exactly when nothing was merged.
   */
  lemma {:induction false} CascadeStops(s: State, h: Hash, may: May, x: Id) returns (z: Id)
    requires Inv(s, h) && x in s.reqs
    ensures var (t, merged) := Cascade(s, h, may, x);
            && z in t.reqs && t.reqs[z].pos <= s.reqs[x].pos && Key(t.reqs[z]) == Key(s.reqs[x]) && Stuck(t, may, z)
            && (merged <==> z != x) && (merged ==> t.reqs[z].pos < s.reqs[x].pos)
    decreases |s.reqs|
  {
    hide Inv, Stuck, Merged, Cascade, Fits;
    var t, y := CascadeRound(s, h, may, x);
    if Cascade(s, h, may, x).1 {
      MergedHas(t, h, y, x);
      var m := Merged(t, h, y, x);
      assert s.reqs[x] == t.reqs[x] by { assert t.reqs[x].mergeable && (s.reqs[x].mergeable ==> t.reqs[x] == s.reqs[x]); }
      PositiveSize(t, h, y);
      z := CascadeStops(m, h, may, y);
      CascadeEnds(s, h, may, x, m, y, z);
    } else {
      z := x;
    }
  }

  /** A request that ends later than another starts is not that one. */
  lemma CascadeEnds(s: State, h: Hash, may: May, x: Id, m: State, y: Id, z: Id)
    requires Inv(s, h) && x in s.reqs && Inv(m, h) && y in m.reqs && x !in m.reqs
    requires Cascade(s, h, may, x).0 == Cascade(m, h, may, y).0 && z in Cascade(m, h, may, y).0.reqs
    ensures z != x
  {
    CascadeKeeps(m, h, may, y, 0);
  }

  /**
   When elv_attempt_insert_merge merges: never if merging is off; into the one-hit cache whenever that can take
   the request, and only then if nothing else is allowed; otherwise unless the request is stuck, and only into
   a request of the index that ends where it starts.
   */
  lemma InsertMergesExactly(s: State, h: Hash, may: May, policy: Merging, x: Id)
    requires Inv(s, h) && x in s.reqs
    ensures var (t, merged) := InsertMerged(s, h, may, policy, x);
            var cached := s.lastMerge.Some? && CanMerge(s, may, s.lastMerge.value, x);
            && (merged <==> x !in t.reqs)
            && (policy == Never ==> !merged && t == s)
            && (policy == OneHit ==> (merged <==> cached))
            && (policy == All && cached ==> merged)
            && (policy == All && !cached && !merged ==> Stuck(t, may, x) && Dropped(s, t))
            && (policy == All && !cached && merged ==> exists u, y :: Dropped(s, u) && Candidate(s, y, x) && CanMerge(u, may, y, x))
  {
    hide Inv, Stuck, Merged, Cascade, Dropped;
    if policy != Never && s.lastMerge.Some? && CanMerge(s, may, s.lastMerge.value, x) {
      HashBound(s, h);
      MergedHas(s, h, s.lastMerge.value, x);
    } else if policy == All {
      CascadeKeeps(s, h, may, x, 0);
      var u, y := CascadeRound(s, h, may, x);
    }
  }

  /** The rest of the conditions does not depend on which requests that no longer merge are still filed. */
  ghost predicate IgnoresIndex(s: State, may: May, x: Id) {
    forall t, y :: Dropped(s, t) ==> may(t, y, x) == may(s, y, x)
  }

  /**
   A mergeable request is merged whenever some request of the index ends where it starts and all that do may be
   merged with.
   */
  lemma MergesWhenPossible(s: State, h: Hash, may: May, x: Id, y: Id)
    requires Inv(s, h) && x in s.reqs && IgnoresIndex(s, may, x)
    requires Candidate(s, y, x) && forall z :: Candidate(s, z, x) ==> CanMerge(s, may, z, x)
    ensures InsertMerged(s, h, may, All, x).1 && x !in InsertMerged(s, h, may, All, x).0.reqs
  {
    hide Inv, InsertMerged, Stuck, IgnoresIndex, Dropped, Candidate;
    InsertMergesExactly(s, h, may, All, x);
    var t := InsertMerged(s, h, may, All, x).0;
    if Dropped(s, t) {
      NotStuck(s, t, may, x, y);
    }
  }

  lemma NotStuck(s: State, t: State, may: May, x: Id, y: Id)
    requires Dropped(s, t) && IgnoresIndex(s, may, x)
    requires Candidate(s, y, x) && forall z :: Candidate(s, z, x) ==> CanMerge(s, may, z, x)
    ensures !Stuck(t, may, x)
  {
    DroppedCandidates(s, t, x);
    assert Candidate(t, y, x);
    forall z | Candidate(t, z, x) ensures CanMerge(t, may, z, x) {
      assert Candidate(s, z, x) && CanMerge(s, may, z, x);
      assert may(t, z, x) == may(s, z, x);
    }
  }

  // ---- bios ----

  lemma SameSectors(s: State, t: State, sector: nat)
    requires t.reqs.Keys == s.reqs.Keys
    requires forall x :: x in s.reqs ==> t.reqs[x].pos == s.reqs[x].pos && t.reqs[x].sectors == s.reqs[x].sectors
    ensures Covered(t, sector) <==> Covered(s, sector)
  {
    forall x ensures Holds(s, x, sector) <==> Holds(t, x, sector) {
    }
  }

  lemma ResizedCovers(s: State, x: Id, pos: nat, sectors: nat, sector: nat)
    requires x in s.reqs && pos <= s.reqs[x].pos && Key(s.reqs[x]) <= pos + sectors
    ensures Covered(Resized(s, x, pos, sectors), sector) <==> Covered(s, sector) || pos <= sector < pos + sectors
  {
    var t := Resized(s, x, pos, sectors);
    forall y | Holds(s, y, sector) ensures Covered(t, sector) {
      assert Holds(t, y, sector);
    }
    forall y | Holds(t, y, sector) ensures Covered(s, sector) || pos <= sector < pos + sectors {
      assert y != x ==> Holds(s, y, sector);
    }
    if pos <= sector < pos + sectors {
      assert Holds(t, x, sector);
    }
  }

  /** The sectors of a bio are covered exactly where they were, or where the bio is. */
  lemma BioCovers(s: State, x: Id, pos: nat, sectors: nat, sector: nat)
    requires x in s.reqs && pos <= s.reqs[x].pos && Key(s.reqs[x]) <= pos + sectors
    ensures Covered(Resized(s, x, pos, sectors), sector) <==>
            Covered(s, sector) || pos <= sector < s.reqs[x].pos || Key(s.reqs[x]) <= sector < pos + sectors
  {
    ResizedCovers(s, x, pos, sectors, sector);
    if s.reqs[x].pos <= sector < Key(s.reqs[x]) {
      assert Holds(s, x, sector);
    }
  }

  /** A back merge of a bio adds its sectors behind the request, whatever else is swallowed, and no others. */
  lemma BackMergedCovers(s: State, h: Hash, may: May, x: Id, n: nat, next: Option<Id>, sector: nat)
    requires x in s.reqs && |s.buckets| == BUCKETS && HashOk(h)
    ensures Covered(BackMerged(s, h, may, x, n, next), sector) <==>
            Covered(s, sector) || Key(s.reqs[x]) <= sector < Key(s.reqs[x]) + n
  {
    hide Covered, Merged, Repositioned;
    var grown := Resized(s, x, s.reqs[x].pos, s.reqs[x].sectors + n);
    BioCovers(s, x, s.reqs[x].pos, s.reqs[x].sectors + n, sector);
    if next.Some? && CanMerge(grown, may, x, next.value) {
      MergedCovers(grown, h, x, next.value, sector);
    } else {
      RepositionFields(grown, h, x);
      SameSectors(grown, Repositioned(grown, h, x).(lastMerge := Some(x)), sector);
    }
  }

  /** A front merge of a bio adds its sectors in front of the request, and no others. */
  lemma FrontMergedCovers(s: State, h: Hash, may: May, x: Id, n: nat, prev: Option<Id>, sector: nat)
    requires x in s.reqs && n <= s.reqs[x].pos && |s.buckets| == BUCKETS && HashOk(h)
    ensures Covered(FrontMerged(s, h, may, x, n, prev), sector) <==>
            Covered(s, sector) || s.reqs[x].pos - n <= sector < s.reqs[x].pos
  {
    hide Covered, Merged;
    var grown := Resized(s, x, s.reqs[x].pos - n, s.reqs[x].sectors + n);
    BioCovers(s, x, s.reqs[x].pos - n, s.reqs[x].sectors + n, sector);
    if prev.Some? && CanMerge(grown, may, prev.value, x) {
      MergedCovers(grown, h, prev.value, x, sector);
    } else {
      SameSectors(grown, grown.(lastMerge := Some(x)), sector);
    }
  }

  // ---- every sector, over whole runs ----

  /** The event brings in the sector. */
  predicate Brings(s: State, e: Event, sector: nat) {
    match e
    case Insert(_, pos, sectors, _) => pos <= sector < pos + sectors
    case InsertMerge(_, pos, sectors, _, _) => pos <= sector < pos + sectors
    case BioBack(x, n, _) => x in s.reqs && Key(s.reqs[x]) <= sector < Key(s.reqs[x]) + n
    case BioFront(x, n, _) => x in s.reqs && s.reqs[x].pos - n <= sector < s.reqs[x].pos
    case _ => false
  }

  lemma ArrivedCovers(s: State, x: Id, pos: nat, sectors: nat, mergeable: bool, sector: nat)
    requires x !in s.reqs
    ensures Covered(Arrived(s, x, pos, sectors, mergeable), sector) <==> Covered(s, sector) || pos <= sector < pos + sectors
  {
    var t := Arrived(s, x, pos, sectors, mergeable);
    forall y | Holds(s, y, sector) ensures Covered(t, sector) {
      assert Holds(t, y, sector);
    }
    forall y | Holds(t, y, sector) ensures Covered(s, sector) || pos <= sector < pos + sectors {
      assert y != x ==> Holds(s, y, sector);
    }
    if pos <= sector < pos + sectors {
      assert Holds(t, x, sector);
    }
  }

  lemma InsertedCovers(s: State, h: Hash, x: Id, sector: nat)
    requires x in s.reqs && |s.buckets| == BUCKETS && HashOk(h)
    ensures Covered(Inserted(s, h, x), sector) <==> Covered(s, sector)
  {
    SameSectors(s, Inserted(s, h, x), sector);
  }

  lemma ApplyCovers(s: State, h: Hash, may: May, e: Event, sector: nat)
    requires Inv(s, h) && Enabled(s, e)
    ensures Covered(Apply(s, h, may, e), sector) <==> Covered(s, sector) || Brings(s, e, sector)
  {
    hide Inv, Covered, InsertMerged, Inserted, BackMerged, FrontMerged, Dispatched, Find;
    HashBound(s, h);
    match e
    case Insert(x, pos, sectors, mergeable) =>
      ArrivedCovers(s, x, pos, sectors, mergeable, sector);
      InsertedCovers(Arrived(s, x, pos, sectors, mergeable), h, x, sector);
    case InsertMerge(x, pos, sectors, mergeable, policy) =>
      var a := Arrived(s, x, pos, sectors, mergeable);
      ArrivedKeeps(s, h, x, pos, sectors, mergeable);
      ArrivedCovers(s, x, pos, sectors, mergeable, sector);
      InsertMergedKeeps(a, h, may, policy, x, sector);
      var (t, merged) := InsertMerged(a, h, may, policy, x);
      HashBound(t, h);
      if !merged {
        InsertedCovers(t, h, x, sector);
      }
    case BioBack(x, n, next) => BackMergedCovers(s, h, may, x, n, next, sector);
    case BioFront(x, n, prev) => FrontMergedCovers(s, h, may, x, n, prev, sector);
    case Dispatch(x) => DispatchCovers(s, x, sector);
    case Forbid(x) => SameSectors(s, Apply(s, h, may, e), sector);
    case Lookup(offset) => LookupCovers(s, h, offset, sector);
  }

  lemma DispatchCovers(s: State, x: Id, sector: nat)
    requires x in s.reqs
    ensures Covered(Dispatched(s, x), sector) <==> Covered(s, sector)
  {
    SameSectors(s, Dispatched(s, x), sector);
  }

  lemma LookupCovers(s: State, h: Hash, offset: nat, sector: nat)
    requires Inv(s, h)
    ensures HashOk(h) && |s.buckets| == BUCKETS && (Covered(Find(s, h, offset).0, sector) <==> Covered(s, sector))
  {
    hide Covered, Find;
    HashBound(s, h);
    FindIsScan(s, h, offset);
    DroppedCovers(s, Find(s, h, offset).0, sector);
  }

  /** Whatever is merged, looked up or dispatched, the requests cover exactly the sectors that were brought in. */
  lemma {:induction false} RunCovers(h: Hash, may: May, states: seq<State>, events: seq<Event>, n: nat, sector: nat)
    requires IsRun(h, may, states, events) && n < |states|
    ensures Covered(states[n], sector) <==> exists k :: 0 <= k < n && Brings(states[k], events[k], sector)
  {
    hide Brings, Inv, Apply;
    if n == 0 {
      assert !Covered(Empty(), sector);
    } else {
      var j := n - 1;
      RunCovers(h, may, states, events, j, sector);
      RunInv(h, may, states, events, j);
      hide Covered;
      assert Enabled(states[j], events[j]) && states[j + 1] == Apply(states[j], h, may, events[j]);
      ApplyCovers(states[j], h, may, events[j], sector);
    }
  }

  // ---- the index is complete ----

  /** Every queued request that may be merged with is in the index. */
  ghost predicate Complete(s: State) {
    forall x :: x in s.reqs && s.reqs[x].queued && s.reqs[x].mergeable ==> s.reqs[x].hashed
  }

  lemma MergedComplete(s: State, h: Hash, a: Id, b: Id)
    requires a in s.reqs && b in s.reqs && a != b && |s.buckets| == BUCKETS && HashOk(h) && Complete(s)
    ensures Complete(Merged(s, h, a, b))
  {
    hide Merged;
    MergedHas(s, h, a, b);
  }

  lemma {:induction false} CascadeComplete(s: State, h: Hash, may: May, x: Id)
    requires Inv(s, h) && x in s.reqs && Complete(s)
    ensures Complete(Cascade(s, h, may, x).0)
    decreases |s.reqs|
  {
    hide Inv, Merged, Cascade, Stuck;
    var t, y := CascadeRound(s, h, may, x);
    assert Complete(t);
    if Cascade(s, h, may, x).1 {
      MergedComplete(t, h, y, x);
      CascadeComplete(Merged(t, h, y, x), h, may, y);
    }
  }

  lemma InsertMergedComplete(s: State, h: Hash, may: May, policy: Merging, x: Id)
    requires Inv(s, h) && x in s.reqs && Complete(s)
    ensures Complete(InsertMerged(s, h, may, policy, x).0)
  {
    hide Inv, Merged, Cascade, Complete;
    HashBound(s, h);
    if policy != Never && s.lastMerge.Some? && CanMerge(s, may, s.lastMerge.value, x) {
      MergedComplete(s, h, s.lastMerge.value, x);
    } else if policy == All {
      CascadeComplete(s, h, may, x);
    }
  }

  lemma BackComplete(s: State, h: Hash, may: May, x: Id, n: nat, next: Option<Id>)
    requires x in s.reqs && |s.buckets| == BUCKETS && HashOk(h) && Complete(s)
    ensures Complete(BackMerged(s, h, may, x, n, next))
  {
    hide Merged, Repositioned;
    var grown := Resized(s, x, s.reqs[x].pos, s.reqs[x].sectors + n);
    if next.Some? && CanMerge(grown, may, x, next.value) {
      MergedComplete(grown, h, x, next.value);
    } else {
      RepositionFields(grown, h, x);
    }
  }

  lemma FrontComplete(s: State, h: Hash, may: May, x: Id, n: nat, prev: Option<Id>)
    requires x in s.reqs && n <= s.reqs[x].pos && |s.buckets| == BUCKETS && HashOk(h) && Complete(s)
    ensures Complete(FrontMerged(s, h, may, x, n, prev))
  {
    hide Merged;
    var grown := Resized(s, x, s.reqs[x].pos - n, s.reqs[x].sectors + n);
    if prev.Some? && CanMerge(grown, may, prev.value, x) {
      MergedComplete(grown, h, prev.value, x);
    }
  }

  lemma InsertedComplete(s: State, h: Hash, x: Id)
    requires x in s.reqs && |s.buckets| == BUCKETS && HashOk(h) && Complete(s)
    ensures Complete(Inserted(s, h, x))
  {
  }

  lemma ApplyComplete(s: State, h: Hash, may: May, e: Event)
    requires Inv(s, h) && Enabled(s, e) && Complete(s)
    ensures Complete(Apply(s, h, may, e))
  {
    hide Inv, InsertMerged, Inserted, BackMerged, FrontMerged, Find, Covered, Unlinked;
    HashBound(s, h);
    match e
    case Insert(x, pos, sectors, mergeable) =>
      InsertedComplete(Arrived(s, x, pos, sectors, mergeable), h, x);
    case InsertMerge(x, pos, sectors, mergeable, policy) =>
      var a := Arrived(s, x, pos, sectors, mergeable);
      ArrivedKeeps(s, h, x, pos, sectors, mergeable);
      InsertMergedKeeps(a, h, may, policy, x, 0);
      InsertMergedComplete(a, h, may, policy, x);
      var (t, merged) := InsertMerged(a, h, may, policy, x);
      HashBound(t, h);
      if !merged {
        InsertedComplete(t, h, x);
      }
    case BioBack(x, n, next) => BackComplete(s, h, may, x, n, next);
    case BioFront(x, n, prev) => FrontComplete(s, h, may, x, n, prev);
    case Dispatch(x) =>
    case Forbid(x) =>
    case Lookup(offset) => FindIsScan(s, h, offset);
  }

  /** In every state of every run, every queued request that may be merged with is in the index, so the lookup finds it. */
  lemma {:induction false} RunComplete(h: Hash, may: May, states: seq<State>, events: seq<Event>, n: nat)
    requires IsRun(h, may, states, events) && n < |states|
    ensures Complete(states[n])
  {
    hide Inv, Apply;
    if n > 0 {
      var j := n - 1;
      RunComplete(h, may, states, events, j);
      RunInv(h, may, states, events, j);
      hide Complete;
      assert Enabled(states[j], events[j]) && states[j + 1] == Apply(states[j], h, may, events[j]);
      ApplyComplete(states[j], h, may, events[j]);
    }
  }
}
