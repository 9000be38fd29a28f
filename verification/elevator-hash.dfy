/**
 The elevator's merge index: requests that may take more are filed in hash buckets under the sector
 where they end, and every operation that moves that sector moves the request.
 */
module ElevatorHash {
  import opened Lists
  import opened Options

  type Id = nat

  /** A request; `queued` is REQ_SORTED until dispatch, `hashed` is REQ_HASHED. */
  datatype Rq = Rq(pos: nat, sectors: nat, mergeable: bool, queued: bool, hashed: bool)

  datatype State = State(
    reqs: map<Id, Rq>,
    buckets: seq<seq<Id>>,
    lastMerge: Option<Id>,
    nrSorted: int,
    dispatched: seq<Id>)

  /** Which bucket a sector hashes to; any function will do. */
  type Hash = nat -> nat

  const BUCKETS := 64

  /** rq_hash_key. */
  function Key(r: Rq): nat {
    r.pos + r.sectors
  }

  ghost predicate HashOk(h: Hash) {
    forall k :: h(k) < BUCKETS
  }

  function Queued(s: State): set<Id> {
    set x | x in s.reqs && s.reqs[x].queued
  }

  /** Bucket `i` holds no request twice and only hashed ones that end where the bucket says. */
  ghost predicate BucketOk(s: State, h: Hash, i: nat)
    requires i < |s.buckets|
  {
    && NoDup(s.buckets[i])
    && forall x :: x in s.buckets[i] ==> x in s.reqs && s.reqs[x].hashed && h(Key(s.reqs[x])) == i
  }

  /** A hashed request is filed under its current end sector. */
  ghost predicate Filed(s: State, h: Hash, x: Id)
    requires x in s.reqs && |s.buckets| == BUCKETS && HashOk(h)
  {
    && (s.reqs[x].hashed ==> x in s.buckets[h(Key(s.reqs[x]))] && s.reqs[x].queued)
    && s.reqs[x].sectors > 0
  }

  ghost predicate Inv(s: State, h: Hash) {
    && HashOk(h) && |s.buckets| == BUCKETS
    && (forall i :: 0 <= i < BUCKETS ==> BucketOk(s, h, i))
    && (forall x :: x in s.reqs ==> Filed(s, h, x))
    && (s.lastMerge.Some? ==> s.lastMerge.value in s.reqs && s.reqs[s.lastMerge.value].queued)
    && s.nrSorted == |Queued(s)|
  }

  // ---- The index ----

  function Unlinked(buckets: seq<seq<Id>>, x: Id): seq<seq<Id>> {
    seq(|buckets|, i requires 0 <= i < |buckets| => Without(buckets[i], x))
  }

  /** __elv_rqhash_del: the request is unlinked from whatever bucket it is in. */
  function Unhash(s: State, x: Id): State
    requires x in s.reqs
  {
    s.(buckets := Unlinked(s.buckets, x),
       reqs := s.reqs[x := s.reqs[x].(hashed := false)])
  }

  /** elv_rqhash_add: the request goes to the head of the bucket for its end sector. */
  function AddHash(s: State, h: Hash, x: Id): State
    requires x in s.reqs && h(Key(s.reqs[x])) < |s.buckets|
  {
    var i := h(Key(s.reqs[x]));
    s.(buckets := s.buckets[i := [x] + s.buckets[i]], reqs := s.reqs[x := s.reqs[x].(hashed := true)])
  }

  /** elv_rqhash_find's walk over one bucket: requests that no longer merge are dropped on the way. */
  function FindIn(s: State, bucket: seq<Id>, offset: nat): (State, Option<Id>)
    decreases |bucket|
  {
    if bucket == [] then (s, None)
    else
      var x := bucket[0];
      if x !in s.reqs then FindIn(s, bucket[1..], offset)
      else if !s.reqs[x].mergeable then FindIn(Unhash(s, x), bucket[1..], offset)
      else if Key(s.reqs[x]) == offset then (s, Some(x))
      else FindIn(s, bucket[1..], offset)
  }

  function Find(s: State, h: Hash, offset: nat): (State, Option<Id>)
    requires h(offset) < |s.buckets|
  {
    FindIn(s, s.buckets[h(offset)], offset)
  }

  // ---- The index keeps its invariant ----

  lemma UnhashBucket(s: State, h: Hash, x: Id, i: nat)
    requires x in s.reqs && i < |s.buckets| && BucketOk(s, h, i)
    ensures BucketOk(Unhash(s, x), h, i) && x !in Unhash(s, x).buckets[i]
  {
    WithoutMember(s.buckets[i], x);
    WithoutNoDup(s.buckets[i], x);
  }

  lemma UnhashFiled(s: State, h: Hash, x: Id, y: Id)
    requires Inv(s, h) && x in s.reqs && y in s.reqs
    ensures Filed(Unhash(s, x), h, y)
  {
    hide Without, NoDup, Queued;
    assert Filed(s, h, y);
    if y != x && s.reqs[y].hashed {
      WithoutHas(s.buckets[h(Key(s.reqs[y]))], x, y);
    }
  }

  lemma UnhashKeeps(s: State, h: Hash, x: Id)
    requires Inv(s, h) && x in s.reqs
    ensures Inv(Unhash(s, x), h)
  {
    hide BucketOk, Filed;
    var t := Unhash(s, x);
    forall i | 0 <= i < BUCKETS
      ensures BucketOk(t, h, i)
    {
      UnhashBucket(s, h, x, i);
    }
    forall y | y in t.reqs
      ensures Filed(t, h, y)
    {
      UnhashFiled(s, h, x, y);
    }
    assert Queued(t) == Queued(s);
  }

  lemma AddHashKeeps(s: State, h: Hash, x: Id)
    requires Inv(s, h) && x in s.reqs && s.reqs[x].queued && !s.reqs[x].hashed
    ensures Inv(AddHash(s, h, x), h)
  {
    var t := AddHash(s, h, x);
    var k := h(Key(s.reqs[x]));
    forall i | 0 <= i < BUCKETS
      ensures BucketOk(t, h, i)
    {
      assert BucketOk(s, h, i);
      assert x !in s.buckets[i];
    }
    forall y | y in t.reqs
      ensures Filed(t, h, y)
    {
      assert Filed(s, h, y);
    }
    assert Queued(t) == Queued(s);
  }

  /** A change that touches neither the buckets nor what is filed in them. */
  lemma SameIndex(s: State, t: State, h: Hash)
    requires Inv(s, h) && t.buckets == s.buckets && t.nrSorted == |Queued(t)|
    requires t.lastMerge.Some? ==> t.lastMerge.value in t.reqs && t.reqs[t.lastMerge.value].queued
    requires forall x :: x in t.reqs ==> t.reqs[x].sectors > 0 && (t.reqs[x].hashed ==> x in s.reqs && s.reqs[x].hashed && t.reqs[x].queued)
    requires forall x :: x in s.reqs && s.reqs[x].hashed ==> x in t.reqs && t.reqs[x].hashed && Key(t.reqs[x]) == Key(s.reqs[x])
    ensures Inv(t, h)
  {
    hide NoDup, Queued;
    forall i | 0 <= i < BUCKETS
      ensures BucketOk(t, h, i)
    {
      assert BucketOk(s, h, i);
    }
    forall y | y in t.reqs
      ensures Filed(t, h, y)
    {
      if y in s.reqs {
        assert Filed(s, h, y);
      }
    }
  }

  /** What a lookup may change: requests that do not merge may leave the index. */
  ghost predicate Dropped(s: State, t: State) {
    && t.reqs.Keys == s.reqs.Keys && t.lastMerge == s.lastMerge && t.nrSorted == s.nrSorted && t.dispatched == s.dispatched
    && forall y :: y in s.reqs ==>
      t.reqs[y] == if s.reqs[y].mergeable then s.reqs[y] else s.reqs[y].(hashed := t.reqs[y].hashed)
  }

  lemma {:induction false} FindInKeeps(s: State, h: Hash, bucket: seq<Id>, offset: nat)
    requires Inv(s, h)
    ensures var (t, found) := FindIn(s, bucket, offset);
      && Inv(t, h) && Dropped(s, t)
      && (found.Some? ==> found.value in bucket && Fits(s, found.value, offset))
      && (found.None? ==> forall x :: x in bucket ==> !Fits(s, x, offset))
    decreases |bucket|
  {
    hide Inv;
    if bucket != [] {
      var x := bucket[0];
      if x in s.reqs && !s.reqs[x].mergeable {
        UnhashKeeps(s, h, x);
        FindInKeeps(Unhash(s, x), h, bucket[1..], offset);
        forall y
          ensures Fits(Unhash(s, x), y, offset) == Fits(s, y, offset)
        {
        }
      } else {
        FindInKeeps(s, h, bucket[1..], offset);
      }
    }
  }

  /** A request a back merge at `offset` could extend. */
  predicate Fits(s: State, x: Id, offset: nat) {
    x in s.reqs && s.reqs[x].mergeable && Key(s.reqs[x]) == offset
  }

  /** The bucketed lookup finds a request exactly when a scan of all hashed requests would. */
  lemma FindIsScan(s: State, h: Hash, offset: nat)
    requires Inv(s, h)
    ensures var (t, found) := Find(s, h, offset);
      && Inv(t, h) && Dropped(s, t)
      && (found.Some? <==> exists x :: Fits(s, x, offset) && s.reqs[x].hashed)
      && (found.Some? ==> Fits(s, found.value, offset) && s.reqs[found.value].hashed && Fits(t, found.value, offset) && t.reqs[found.value].hashed)
  {
    FindInKeeps(s, h, s.buckets[h(offset)], offset);
    assert BucketOk(s, h, h(offset));
    forall x | Fits(s, x, offset) && s.reqs[x].hashed
      ensures x in s.buckets[h(offset)]
    {
      assert Filed(s, h, x);
    }
    var found := Find(s, h, offset).1;
    if found.Some? {
      assert Fits(s, found.value, offset) && s.reqs[found.value].hashed;
    }
  }

  // ---- Moving the end sector ----

  function Resized(s: State, x: Id, pos: nat, sectors: nat): State
    requires x in s.reqs
  {
    s.(reqs := s.reqs[x := s.reqs[x].(pos := pos, sectors := sectors)])
  }

  /** elv_rqhash_reposition. */
  function Repositioned(s: State, h: Hash, x: Id): State
    requires x in s.reqs && h(Key(s.reqs[x])) < |s.buckets|
  {
    AddHash(Unhash(s, x), h, x)
  }

  lemma ResizeUnhashed(s: State, h: Hash, x: Id, pos: nat, sectors: nat)
    requires Inv(s, h) && x in s.reqs && !s.reqs[x].hashed && sectors > 0
    ensures Inv(Resized(s, x, pos, sectors), h)
  {
    var t := Resized(s, x, pos, sectors);
    assert Queued(t) == Queued(s);
    SameIndex(s, t, h);
  }

  /** A request that has grown, whatever bucket it was in, is in the right one after repositioning. */
  lemma RepositionKeeps(s: State, h: Hash, x: Id, pos: nat, sectors: nat)
    requires Inv(s, h) && x in s.reqs && s.reqs[x].queued && sectors > 0
    ensures Inv(Repositioned(Resized(s, x, pos, sectors), h, x), h)
  {
    hide Inv;
    HashBound(s, h);
    UnhashKeeps(s, h, x);
    var t := Unhash(s, x);
    ResizeUnhashed(t, h, x, pos, sectors);
    assert Unhash(Resized(s, x, pos, sectors), x) == Resized(t, x, pos, sectors);
    AddHashKeeps(Resized(t, x, pos, sectors), h, x);
  }

  lemma HashBound(s: State, h: Hash)
    requires Inv(s, h)
    ensures |s.buckets| == BUCKETS && HashOk(h)
  {
  }

  // ---- The queue's operations ----

  /** The request that was merged away is gone, and the one that took it over is remembered. */
  function Freed(s: State, a: Id, b: Id): State
    requires b in s.reqs
  {
    s.(reqs := s.reqs - {b}, lastMerge := Some(a), nrSorted := if s.reqs[b].queued then s.nrSorted - 1 else s.nrSorted)
  }

  /** elv_merge_requests: a request that was queued leaves the index. */
  function Merged(s: State, h: Hash, a: Id, b: Id): State
    requires a in s.reqs && b in s.reqs && a != b && |s.buckets| == BUCKETS && HashOk(h)
  {
    var t := Repositioned(Resized(s, a, s.reqs[a].pos, s.reqs[a].sectors + s.reqs[b].sectors), h, a);
    Freed(if s.reqs[b].queued then Unhash(t, b) else t, a, b)
  }

  lemma FreeKeeps(s: State, h: Hash, a: Id, b: Id)
    requires Inv(s, h) && b in s.reqs && !s.reqs[b].hashed && a in s.reqs && s.reqs[a].queued && a != b
    ensures Inv(Freed(s, a, b), h)
  {
    var t := Freed(s, a, b);
    assert Queued(t) == Queued(s) - {b};
    SameIndex(s, t, h);
  }

  /** Also when the request has just grown by a bio, and is still filed under its former end. */
  lemma GrownMergedKeeps(s: State, h: Hash, a: Id, pos: nat, sectors: nat, b: Id)
    requires Inv(s, h) && a in s.reqs && b in s.reqs && a != b && s.reqs[a].queued && sectors > 0
    ensures HashOk(h) && |s.buckets| == BUCKETS
    ensures Inv(Merged(Resized(s, a, pos, sectors), h, a, b), h)
  {
    hide Inv, Unhash, Repositioned, Freed;
    HashBound(s, h);
    var total := sectors + s.reqs[b].sectors;
    RepositionKeeps(s, h, a, pos, total);
    assert Resized(Resized(s, a, pos, sectors), a, pos, total) == Resized(s, a, pos, total);
    var t := Repositioned(Resized(s, a, pos, total), h, a);
    RepositionFields(Resized(s, a, pos, total), h, a);
    UnhashFields(t, b);
    if s.reqs[b].queued {
      UnhashKeeps(t, h, b);
      FreeKeeps(Unhash(t, b), h, a, b);
    } else {
      PositiveSize(s, h, b);
      FreeKeeps(t, h, a, b);
    }
  }

  lemma UnhashFields(s: State, x: Id)
    requires x in s.reqs
    ensures var t := Unhash(s, x);
      && t.reqs == s.reqs[x := s.reqs[x].(hashed := false)] && |t.buckets| == |s.buckets|
      && t.lastMerge == s.lastMerge && t.nrSorted == s.nrSorted && t.dispatched == s.dispatched
  {
  }

  lemma RepositionFields(s: State, h: Hash, x: Id)
    requires x in s.reqs && h(Key(s.reqs[x])) < |s.buckets|
    ensures var t := Repositioned(s, h, x);
      && t.reqs == s.reqs[x := s.reqs[x].(hashed := true)] && |t.buckets| == |s.buckets|
      && t.lastMerge == s.lastMerge && t.nrSorted == s.nrSorted && t.dispatched == s.dispatched
  {
  }

  lemma MergedKeeps(s: State, h: Hash, a: Id, b: Id)
    requires Inv(s, h) && a in s.reqs && b in s.reqs && a != b && s.reqs[a].queued
    ensures HashOk(h) && |s.buckets| == BUCKETS
    ensures Inv(Merged(s, h, a, b), h)
    ensures |Merged(s, h, a, b).reqs| == |s.reqs| - 1
  {
    hide Inv, Merged;
    HashBound(s, h);
    PositiveSize(s, h, a);
    GrownMergedKeeps(s, h, a, s.reqs[a].pos, s.reqs[a].sectors, b);
    assert Resized(s, a, s.reqs[a].pos, s.reqs[a].sectors) == s;
    MergedHas(s, h, a, b);
    OneLess(s.reqs, Merged(s, h, a, b).reqs, b);
  }

  lemma OneLess(m: map<Id, Rq>, m': map<Id, Rq>, b: Id)
    requires b in m && m'.Keys == m.Keys - {b}
    ensures |m'| == |m| - 1
  {
    assert |m| == |m.Keys| && |m'| == |m'.Keys|;
  }

  lemma PositiveSize(s: State, h: Hash, x: Id)
    requires Inv(s, h) && x in s.reqs
    ensures s.reqs[x].sectors > 0 && (s.reqs[x].hashed ==> s.reqs[x].queued)
  {
    assert Filed(s, h, x);
  }

  /** Which sectors the requests cover. */
  ghost predicate Covered(s: State, sector: nat) {
    exists x :: Holds(s, x, sector)
  }

  ghost predicate Holds(s: State, x: Id, sector: nat) {
    x in s.reqs && s.reqs[x].pos <= sector < Key(s.reqs[x])
  }

  /** Merging adjacent requests covers the same sectors as before. */
  lemma MergedCovers(s: State, h: Hash, a: Id, b: Id, sector: nat)
    requires a in s.reqs && b in s.reqs && a != b && |s.buckets| == BUCKETS && HashOk(h)
    requires Key(s.reqs[a]) == s.reqs[b].pos
    ensures Covered(Merged(s, h, a, b), sector) <==> Covered(s, sector)
  {
    var t := Merged(s, h, a, b);
    forall x | Holds(t, x, sector)
      ensures Covered(s, sector)
    {
      assert Holds(s, x, sector) || (x == a && Holds(s, b, sector));
    }
    forall x | Holds(s, x, sector)
      ensures Covered(t, sector)
    {
      assert Holds(t, if x == b then a else x, sector);
    }
  }

  /** The rest of attempt_merge's conditions (same operation, device, limits), for the code that is not modelled. */
  type May = (State, Id, Id) -> bool

  predicate CanMerge(s: State, may: May, a: Id, b: Id) {
    && a in s.reqs && b in s.reqs && a != b
    && s.reqs[a].mergeable && s.reqs[b].mergeable && Key(s.reqs[a]) == s.reqs[b].pos
    && may(s, a, b)
  }

  /** A request does not end where it starts, so the lookup for one never finds the request itself. */
  lemma FoundIsOther(s: State, h: Hash, x: Id, offset: nat)
    requires Inv(s, h) && x in s.reqs && s.reqs[x].pos == offset
    ensures !Fits(s, x, offset)
  {
    PositiveSize(s, h, x);
  }

  /** The loop of elv_attempt_insert_merge: every round frees the request that was merged away. */
  ghost function Cascade(s: State, h: Hash, may: May, x: Id): (State, bool)
    requires Inv(s, h) && x in s.reqs
    decreases |s.reqs|
  {
    FindIsScan(s, h, s.reqs[x].pos);
    var (t, found) := Find(s, h, s.reqs[x].pos);
    if found.Some? && CanMerge(t, may, found.value, x) then
      PositiveSize(t, h, found.value);
      MergedKeeps(t, h, found.value, x);
      MergedHas(t, h, found.value, x);
      SameCount(s.reqs, t.reqs);
      (Cascade(Merged(t, h, found.value, x), h, may, found.value).0, true)
    else (t, false)
  }

  lemma SameCount(m: map<Id, Rq>, m': map<Id, Rq>)
    requires m.Keys == m'.Keys
    ensures |m| == |m'|
  {
    assert |m| == |m.Keys| && |m'| == |m'.Keys|;
  }

  lemma MergedHas(s: State, h: Hash, a: Id, b: Id)
    requires a in s.reqs && b in s.reqs && a != b && |s.buckets| == BUCKETS && HashOk(h)
    ensures var t := Merged(s, h, a, b);
      && t.reqs.Keys == s.reqs.Keys - {b} && t.dispatched == s.dispatched && t.lastMerge == Some(a)
      && t.reqs[a] == s.reqs[a].(sectors := s.reqs[a].sectors + s.reqs[b].sectors, hashed := true)
      && forall y :: y in s.reqs && y != a && y != b ==> y in t.reqs && t.reqs[y] == s.reqs[y]
  {
  }

  lemma DroppedCovers(s: State, t: State, sector: nat)
    requires Dropped(s, t)
    ensures Covered(t, sector) <==> Covered(s, sector)
  {
    forall x
      ensures Holds(s, x, sector) <==> Holds(t, x, sector)
    {
    }
  }

  /** The cascade keeps the index right and no sector is lost or made up. */
  lemma {:induction false} CascadeKeeps(s: State, h: Hash, may: May, x: Id, sector: nat)
    requires Inv(s, h) && x in s.reqs
    ensures var (t, merged) := Cascade(s, h, may, x);
      && Inv(t, h)
      && (Covered(t, sector) <==> Covered(s, sector))
      && (merged <==> x !in t.reqs)
      && t.reqs.Keys <= s.reqs.Keys && t.dispatched == s.dispatched
      && (!merged ==> t.reqs[x] == s.reqs[x].(hashed := t.reqs[x].hashed))
    decreases |s.reqs|
  {
    hide Inv, Covered, Fits, Merged, Find;
    HashBound(s, h);
    FindIsScan(s, h, s.reqs[x].pos);
    var (t, found) := Find(s, h, s.reqs[x].pos);
    DroppedCovers(s, t, sector);
    if found.Some? && CanMerge(t, may, found.value, x) {
      HashBound(t, h);
      PositiveSize(t, h, found.value);
      MergedKeeps(t, h, found.value, x);
      MergedHas(t, h, found.value, x);
      MergedCovers(t, h, found.value, x, sector);
      SameCount(s.reqs, t.reqs);
      CascadeKeeps(Merged(t, h, found.value, x), h, may, found.value, sector);
    }
  }

  // ---- Runs ----

  datatype Merging = All | OneHit | Never

  /** A new request, not yet in the elevator. */
  function Arrived(s: State, x: Id, pos: nat, sectors: nat, mergeable: bool): State {
    s.(reqs := s.reqs[x := Rq(pos, sectors, mergeable, false, false)])
  }

  lemma ArrivedKeeps(s: State, h: Hash, x: Id, pos: nat, sectors: nat, mergeable: bool)
    requires Inv(s, h) && x !in s.reqs && sectors > 0
    ensures Inv(Arrived(s, x, pos, sectors, mergeable), h)
  {
    var t := Arrived(s, x, pos, sectors, mergeable);
    assert Queued(t) == Queued(s);
    SameIndex(s, t, h);
  }

  /** Insertion with sorting. */
  function Inserted(s: State, h: Hash, x: Id): State
    requires x in s.reqs && |s.buckets| == BUCKETS && HashOk(h)
  {
    var t := s.(reqs := s.reqs[x := s.reqs[x].(queued := true)], nrSorted := s.nrSorted + 1);
    if s.reqs[x].mergeable then
      AddHash(t, h, x).(lastMerge := if s.lastMerge.None? then Some(x) else s.lastMerge)
    else t
  }

  lemma InsertedKeeps(s: State, h: Hash, x: Id)
    requires Inv(s, h) && x in s.reqs && !s.reqs[x].queued
    ensures Inv(Inserted(s, h, x), h)
  {
    hide AddHash;
    var t := s.(reqs := s.reqs[x := s.reqs[x].(queued := true)], nrSorted := s.nrSorted + 1);
    assert Filed(s, h, x);
    QueueKeeps(s, h, x);
    if s.reqs[x].mergeable {
      AddHashKeeps(t, h, x);
      AddHashFields(t, h, x);
      CacheKeeps(AddHash(t, h, x), h, if s.lastMerge.None? then Some(x) else s.lastMerge);
    }
  }

  lemma AddHashFields(s: State, h: Hash, x: Id)
    requires x in s.reqs && h(Key(s.reqs[x])) < |s.buckets|
    ensures var t := AddHash(s, h, x);
      t.reqs == s.reqs[x := s.reqs[x].(hashed := true)] && t.lastMerge == s.lastMerge && t.nrSorted == s.nrSorted && t.dispatched == s.dispatched
  {
  }

  lemma CacheKeeps(s: State, h: Hash, last: Option<Id>)
    requires Inv(s, h) && (last.Some? ==> last.value in s.reqs && s.reqs[last.value].queued)
    ensures Inv(s.(lastMerge := last), h)
  {
    var t := s.(lastMerge := last);
    assert Queued(t) == Queued(s);
    SameIndex(s, t, h);
  }

  lemma QueueKeeps(s: State, h: Hash, x: Id)
    requires Inv(s, h) && x in s.reqs && !s.reqs[x].queued
    ensures Inv(s.(reqs := s.reqs[x := s.reqs[x].(queued := true)], nrSorted := s.nrSorted + 1), h)
  {
    var t := s.(reqs := s.reqs[x := s.reqs[x].(queued := true)], nrSorted := s.nrSorted + 1);
    assert Queued(t) == Queued(s) + {x};
    SameIndex(s, t, h);
  }

  /** elv_dispatch_add_tail. */
  function Dispatched(s: State, x: Id): State
    requires x in s.reqs
  {
    var t := Unhash(s, x);
    t.(reqs := t.reqs[x := t.reqs[x].(queued := false)],
       lastMerge := if s.lastMerge == Some(x) then None else s.lastMerge,
       nrSorted := s.nrSorted - 1,
       dispatched := s.dispatched + [x])
  }

  lemma DispatchedKeeps(s: State, h: Hash, x: Id)
    requires Inv(s, h) && x in s.reqs && s.reqs[x].queued
    ensures Inv(Dispatched(s, x), h)
  {
    hide Unhash;
    UnhashKeeps(s, h, x);
    UnhashFields(s, x);
    var u, t := Unhash(s, x), Dispatched(s, x);
    assert Queued(t) == Queued(u) - {x};
    SameIndex(u, t, h);
  }

  /** A bio in front moves the start and not the end, so the request stays where it is filed. */
  lemma FrontGrowthKeeps(s: State, h: Hash, x: Id, n: nat)
    requires Inv(s, h) && x in s.reqs && n <= s.reqs[x].pos
    ensures Inv(Resized(s, x, s.reqs[x].pos - n, s.reqs[x].sectors + n), h)
  {
    var t := Resized(s, x, s.reqs[x].pos - n, s.reqs[x].sectors + n);
    assert Queued(t) == Queued(s);
    SameIndex(s, t, h);
  }

  /** A request stops being mergeable while it is in the index. */
  lemma ForbidKeeps(s: State, h: Hash, x: Id)
    requires Inv(s, h) && x in s.reqs
    ensures Inv(s.(reqs := s.reqs[x := s.reqs[x].(mergeable := false)]), h)
  {
    var t := s.(reqs := s.reqs[x := s.reqs[x].(mergeable := false)]);
    assert Queued(t) == Queued(s);
    SameIndex(s, t, h);
  }

  /** elv_attempt_insert_merge. */
  ghost function InsertMerged(s: State, h: Hash, may: May, policy: Merging, x: Id): (State, bool)
    requires Inv(s, h) && x in s.reqs
  {
    if policy == Never then (s, false)
    else if s.lastMerge.Some? && CanMerge(s, may, s.lastMerge.value, x) then (Merged(s, h, s.lastMerge.value, x), true)
    else if policy == OneHit then (s, false)
    else Cascade(s, h, may, x)
  }

  lemma InsertMergedKeeps(s: State, h: Hash, may: May, policy: Merging, x: Id, sector: nat)
    requires Inv(s, h) && x in s.reqs && !s.reqs[x].queued
    ensures var (t, merged) := InsertMerged(s, h, may, policy, x);
      && Inv(t, h)
      && (Covered(t, sector) <==> Covered(s, sector))
      && (merged <==> x !in t.reqs)
      && (!merged ==> !t.reqs[x].queued)
  {
    hide Covered, Cascade, Merged, BucketOk, Filed;
    PositiveSize(s, h, x);
    if policy != Never && s.lastMerge.Some? && CanMerge(s, may, s.lastMerge.value, x) {
      MergedKeeps(s, h, s.lastMerge.value, x);
      MergedHas(s, h, s.lastMerge.value, x);
      MergedCovers(s, h, s.lastMerge.value, x, sector);
    } else if policy == All {
      CascadeKeeps(s, h, may, x, sector);
    }
  }

  datatype Event =
    | Insert(x: Id, pos: nat, sectors: nat, mergeable: bool)
    | InsertMerge(x: Id, pos: nat, sectors: nat, mergeable: bool, policy: Merging)
    | BioBack(x: Id, n: nat, next: Option<Id>)
    | BioFront(x: Id, n: nat, prev: Option<Id>)
    | Dispatch(x: Id)
    | Forbid(x: Id)
    | Lookup(offset: nat)

  /** Requests that are sorted carry data, and only queued requests are merged into or dispatched. */
  predicate Enabled(s: State, e: Event) {
    match e
    case Insert(x, _, sectors, _) => x !in s.reqs && sectors > 0
    case InsertMerge(x, _, sectors, _, _) => x !in s.reqs && sectors > 0
    case BioBack(x, _, next) =>
      && x in s.reqs && s.reqs[x].queued
      && (next.Some? ==> next.value in s.reqs && s.reqs[next.value].queued)
    case BioFront(x, n, prev) =>
      && x in s.reqs && s.reqs[x].queued && n <= s.reqs[x].pos
      && (prev.Some? ==> prev.value in s.reqs && s.reqs[prev.value].queued)
    case Dispatch(x) => x in s.reqs && s.reqs[x].queued
    case Forbid(x) => x in s.reqs
    case Lookup(_) => true
  }

  /** The tail of a back merge of `n` sectors: the latter neighbour is swallowed, or the request is repositioned. */
  function BackMerged(s: State, h: Hash, may: May, x: Id, n: nat, next: Option<Id>): State
    requires x in s.reqs && |s.buckets| == BUCKETS && HashOk(h)
  {
    var grown := Resized(s, x, s.reqs[x].pos, s.reqs[x].sectors + n);
    if next.Some? && CanMerge(grown, may, x, next.value) then Merged(grown, h, x, next.value)
    else Repositioned(grown, h, x).(lastMerge := Some(x))
  }

  /** The tail of a front merge: the former neighbour swallows the request, or nothing is refiled. */
  function FrontMerged(s: State, h: Hash, may: May, x: Id, n: nat, prev: Option<Id>): State
    requires x in s.reqs && n <= s.reqs[x].pos && |s.buckets| == BUCKETS && HashOk(h)
  {
    var grown := Resized(s, x, s.reqs[x].pos - n, s.reqs[x].sectors + n);
    if prev.Some? && CanMerge(grown, may, prev.value, x) then Merged(grown, h, prev.value, x)
    else grown.(lastMerge := Some(x))
  }

  lemma BackMergedKeeps(s: State, h: Hash, may: May, x: Id, n: nat, next: Option<Id>)
    requires Inv(s, h) && x in s.reqs && s.reqs[x].queued
    ensures Inv(BackMerged(s, h, may, x, n, next), h)
  {
    hide Inv, Merged, Repositioned;
    HashBound(s, h);
    PositiveSize(s, h, x);
    var pos, sectors := s.reqs[x].pos, s.reqs[x].sectors + n;
    var grown := Resized(s, x, pos, sectors);
    if next.Some? && CanMerge(grown, may, x, next.value) {
      GrownMergedKeeps(s, h, x, pos, sectors, next.value);
    } else {
      RepositionKeeps(s, h, x, pos, sectors);
      RepositionFields(grown, h, x);
      CacheKeeps(Repositioned(grown, h, x), h, Some(x));
    }
  }

  lemma FrontMergedKeeps(s: State, h: Hash, may: May, x: Id, n: nat, prev: Option<Id>)
    requires Inv(s, h) && x in s.reqs && s.reqs[x].queued && n <= s.reqs[x].pos
    requires prev.Some? ==> prev.value in s.reqs && s.reqs[prev.value].queued
    ensures Inv(FrontMerged(s, h, may, x, n, prev), h)
  {
    hide Inv, Merged;
    HashBound(s, h);
    FrontGrowthKeeps(s, h, x, n);
    var grown := Resized(s, x, s.reqs[x].pos - n, s.reqs[x].sectors + n);
    if prev.Some? && CanMerge(grown, may, prev.value, x) {
      MergedKeeps(grown, h, prev.value, x);
    } else {
      CacheKeeps(grown, h, Some(x));
    }
  }

  ghost function Apply(s: State, h: Hash, may: May, e: Event): State
    requires Inv(s, h) && Enabled(s, e)
  {
    HashBound(s, h);
    match e
    case Insert(x, pos, sectors, mergeable) => Inserted(Arrived(s, x, pos, sectors, mergeable), h, x)
    case InsertMerge(x, pos, sectors, mergeable, policy) =>
      ArrivedKeeps(s, h, x, pos, sectors, mergeable);
      var (t, merged) := InsertMerged(Arrived(s, x, pos, sectors, mergeable), h, may, policy, x);
      InsertMergedKeeps(Arrived(s, x, pos, sectors, mergeable), h, may, policy, x, 0);
      HashBound(t, h);
      if merged then t else Inserted(t, h, x)
    case BioBack(x, n, next) => BackMerged(s, h, may, x, n, next)
    case BioFront(x, n, prev) => FrontMerged(s, h, may, x, n, prev)
    case Dispatch(x) => Dispatched(s, x)
    case Forbid(x) => s.(reqs := s.reqs[x := s.reqs[x].(mergeable := false)])
    case Lookup(offset) => Find(s, h, offset).0
  }

  lemma ApplyKeeps(s: State, h: Hash, may: May, e: Event)
    requires Inv(s, h) && Enabled(s, e)
    ensures Inv(Apply(s, h, may, e), h)
  {
    hide Inv, InsertMerged, Inserted, BackMerged, FrontMerged, Dispatched, Find, Covered;
    HashBound(s, h);
    match e
    case Insert(x, pos, sectors, mergeable) =>
      ArrivedKeeps(s, h, x, pos, sectors, mergeable);
      InsertedKeeps(Arrived(s, x, pos, sectors, mergeable), h, x);
    case InsertMerge(x, pos, sectors, mergeable, policy) =>
      var a := Arrived(s, x, pos, sectors, mergeable);
      ArrivedKeeps(s, h, x, pos, sectors, mergeable);
      InsertMergedKeeps(a, h, may, policy, x, 0);
      var (t, merged) := InsertMerged(a, h, may, policy, x);
      if !merged {
        InsertedKeeps(t, h, x);
      }
    case BioBack(x, n, next) => BackMergedKeeps(s, h, may, x, n, next);
    case BioFront(x, n, prev) => FrontMergedKeeps(s, h, may, x, n, prev);
    case Dispatch(x) => DispatchedKeeps(s, h, x);
    case Forbid(x) => ForbidKeeps(s, h, x);
    case Lookup(offset) => FindIsScan(s, h, offset);
  }

  function Empty(): State {
    State(map[], seq(BUCKETS, _ => []), None, 0, [])
  }

  ghost predicate IsRun(h: Hash, may: May, states: seq<State>, events: seq<Event>) {
    && HashOk(h) && |states| == |events| + 1 && states[0] == Empty()
    && forall i :: 0 <= i < |events| && Inv(states[i], h) ==>
      Enabled(states[i], events[i]) && states[i + 1] == Apply(states[i], h, may, events[i])
  }

  /** In every state of every run each hashed request is filed under its current end sector. */
  lemma {:induction false} RunInv(h: Hash, may: May, states: seq<State>, events: seq<Event>, i: nat)
    requires IsRun(h, may, states, events) && i < |states|
    ensures Inv(states[i], h)
  {
    if i == 0 {
      assert Queued(Empty()) == {};
    } else {
      var j := i - 1;
      RunInv(h, may, states, events, j);
      assert Enabled(states[j], events[j]) && states[j + 1] == Apply(states[j], h, may, events[j]);
      ApplyKeeps(states[j], h, may, events[j]);
    }
  }

  // ---- No request is lost or dispatched twice ----

  /** Every request but `x` is either queued or on the dispatch list, where it is once. */
  ghost predicate SettledBut(s: State, x: Option<Id>) {
    && NoDup(s.dispatched)
    && (forall y :: y in s.dispatched ==> y in s.reqs && x != Some(y))
    && forall y :: y in s.reqs && x != Some(y) ==> (s.reqs[y].queued <==> y !in s.dispatched)
  }

  ghost predicate Settled(s: State) {
    SettledBut(s, None)
  }

  lemma MergedSettles(s: State, h: Hash, a: Id, b: Id)
    requires a in s.reqs && b in s.reqs && a != b && |s.buckets| == BUCKETS && HashOk(h)
    requires SettledBut(s, Some(b))
    ensures Settled(Merged(s, h, a, b))
  {
    hide Merged, NoDup;
    MergedHas(s, h, a, b);
  }

  /** A queued request may be set aside, since it is not on the dispatch list. */
  lemma SetAside(s: State, x: Id)
    requires Settled(s) && x in s.reqs && s.reqs[x].queued
    ensures SettledBut(s, Some(x))
  {
  }

  lemma DroppedSettles(s: State, t: State, x: Id)
    requires SettledBut(s, Some(x)) && Dropped(s, t) && x in s.reqs
    ensures SettledBut(t, Some(x)) && x in t.reqs && t.reqs[x].queued == s.reqs[x].queued
  {
    hide NoDup;
  }

  lemma {:induction false} CascadeSettles(s: State, h: Hash, may: May, x: Id)
    requires Inv(s, h) && x in s.reqs && SettledBut(s, Some(x))
    ensures var (t, merged) := Cascade(s, h, may, x);
      if merged then Settled(t)
      else x in t.reqs && SettledBut(t, Some(x)) && t.reqs[x].queued == s.reqs[x].queued
    decreases |s.reqs|
  {
    hide Inv, Merged, Find, Fits, SettledBut, Dropped, Cascade;
    HashBound(s, h);
    CascadeStep(s, h, may, x);
    FindIsScan(s, h, s.reqs[x].pos);
    var (t, found) := Find(s, h, s.reqs[x].pos);
    DroppedSettles(s, t, x);
    if found.Some? && CanMerge(t, may, found.value, x) {
      MergedSettles(t, h, found.value, x);
      MergedHas(t, h, found.value, x);
      var m := Merged(t, h, found.value, x);
      SetAside(m, found.value);
      CascadeSettles(m, h, may, found.value);
      SetBack(Cascade(m, h, may, found.value).0, found.value);
    }
  }

  lemma SetBack(s: State, x: Id)
    ensures x in s.reqs && SettledBut(s, Some(x)) && s.reqs[x].queued ==> Settled(s)
  {
  }

  lemma InsertMergedSettles(s: State, h: Hash, may: May, policy: Merging, x: Id)
    requires Inv(s, h) && x in s.reqs && !s.reqs[x].queued && SettledBut(s, Some(x))
    ensures var (t, merged) := InsertMerged(s, h, may, policy, x);
      if merged then Settled(t) else x in t.reqs && SettledBut(t, Some(x)) && !t.reqs[x].queued
  {
    hide Inv, Cascade, Merged;
    HashBound(s, h);
    if policy != Never && s.lastMerge.Some? && CanMerge(s, may, s.lastMerge.value, x) {
      MergedSettles(s, h, s.lastMerge.value, x);
    } else if policy == All {
      CascadeSettles(s, h, may, x);
    }
  }

  lemma InsertedSettles(s: State, h: Hash, x: Id)
    requires x in s.reqs && |s.buckets| == BUCKETS && HashOk(h) && SettledBut(s, Some(x))
    ensures Settled(Inserted(s, h, x))
  {
    hide NoDup;
  }

  lemma ApplySettles(s: State, h: Hash, may: May, e: Event)
    requires Inv(s, h) && Enabled(s, e) && Settled(s)
    ensures Settled(Apply(s, h, may, e))
  {
    hide Inv, InsertMerged, Inserted, Merged, Find, NoDup, Unhash, AddHash, Repositioned;
    HashBound(s, h);
    match e
    case Insert(x, pos, sectors, mergeable) =>
      InsertedSettles(Arrived(s, x, pos, sectors, mergeable), h, x);
    case InsertMerge(x, pos, sectors, mergeable, policy) =>
      var a := Arrived(s, x, pos, sectors, mergeable);
      ArrivedKeeps(s, h, x, pos, sectors, mergeable);
      InsertMergedKeeps(a, h, may, policy, x, 0);
      InsertMergedSettles(a, h, may, policy, x);
      var (t, merged) := InsertMerged(a, h, may, policy, x);
      HashBound(t, h);
      if !merged {
        InsertedSettles(t, h, x);
      }
    case BioBack(x, n, next) =>
      var grown := Resized(s, x, s.reqs[x].pos, s.reqs[x].sectors + n);
      RepositionFields(grown, h, x);
      if next.Some? && CanMerge(grown, may, x, next.value) {
        SetAside(grown, next.value);
        MergedSettles(grown, h, x, next.value);
      }
    case BioFront(x, n, prev) =>
      var grown := Resized(s, x, s.reqs[x].pos - n, s.reqs[x].sectors + n);
      if prev.Some? && CanMerge(grown, may, prev.value, x) {
        SetAside(grown, x);
        MergedSettles(grown, h, prev.value, x);
      }
    case Dispatch(x) =>
      UnhashFields(s, x);
      AppendNoDup(s.dispatched, x);
    case Forbid(x) =>
    case Lookup(offset) =>
      FindIsScan(s, h, offset);
  }

  /** In every state of every run each request is in the elevator or on the dispatch list, not both and not twice. */
  lemma {:induction false} RunSettled(h: Hash, may: May, states: seq<State>, events: seq<Event>, i: nat)
    requires IsRun(h, may, states, events) && i < |states|
    ensures Settled(states[i])
  {
    hide Inv, Apply, Enabled;
    if i > 0 {
      var j := i - 1;
      RunInv(h, may, states, events, j);
      RunSettled(h, may, states, events, j);
      assert Enabled(states[j], events[j]) && states[j + 1] == Apply(states[j], h, may, events[j]);
      ApplySettles(states[j], h, may, events[j]);
    }
  }

  /** The elevator's queue, changed in place. */
  class ElevatorQueue {
    var reqs: map<Id, Rq>
    var buckets: seq<seq<Id>>
    var lastMerge: Option<Id>
    var nrSorted: int
    var dispatched: seq<Id>
    const h: Hash

    function View(): State
      reads this
    {
      State(reqs, buckets, lastMerge, nrSorted, dispatched)
    }

    constructor (h: Hash)
      requires HashOk(h)
      ensures this.h == h && View() == Empty() && Inv(View(), h)
    {
      this.h := h;
      reqs, buckets, lastMerge, nrSorted, dispatched := map[], seq(BUCKETS, _ => []), None, 0, [];
      new;
      assert Queued(Empty()) == {};
    }

    /** __elv_rqhash_del. */
    method HashDel(x: Id)
      requires x in reqs
      modifies this`reqs, this`buckets
      ensures View() == Unhash(old(View()), x)
    {
      buckets := Unlinked(buckets, x);
      reqs := reqs[x := reqs[x].(hashed := false)];
    }

    /** elv_rqhash_add. */
    method HashAdd(x: Id)
      requires x in reqs && !reqs[x].hashed && h(Key(reqs[x])) < |buckets|
      modifies this`reqs, this`buckets
      ensures View() == AddHash(old(View()), h, x)
    {
      var i := h(Key(reqs[x]));
      buckets := buckets[i := [x] + buckets[i]];
      reqs := reqs[x := reqs[x].(hashed := true)];
    }

    /** elv_rqhash_reposition. */
    method Reposition(x: Id)
      requires x in reqs && h(Key(reqs[x])) < |buckets|
      modifies this`reqs, this`buckets
      ensures View() == Repositioned(old(View()), h, x)
    {
      hide Unhash, AddHash;
      UnhashFields(View(), x);
      HashDel(x);
      HashAdd(x);
    }

    /** elv_rqhash_find. */
    method HashFind(offset: nat) returns (found: Option<Id>)
      requires Inv(View(), h)
      modifies this`reqs, this`buckets
      ensures Inv(View(), h) && (View(), found) == Find(old(View()), h, offset)
      ensures found.Some? <==> exists x :: Fits(old(View()), x, offset) && old(reqs)[x].hashed
    {
      hide Inv, Unhash, Fits;
      HashBound(View(), h);
      FindIsScan(View(), h, offset);
      ghost var result := Find(View(), h, offset);
      var bucket := buckets[h(offset)];
      while bucket != []
        invariant FindIn(View(), bucket, offset) == result
        invariant lastMerge == old(lastMerge) && nrSorted == old(nrSorted) && dispatched == old(dispatched)
        decreases |bucket|
      {
        var x := bucket[0];
        if x in reqs {
          if !reqs[x].mergeable {
            HashDel(x);
          } else if Key(reqs[x]) == offset {
            return Some(x);
          }
        }
        bucket := bucket[1..];
      }
      return None;
    }

    method Grow(a: Id, n: nat)
      requires a in reqs
      modifies this`reqs
      ensures View() == Resized(old(View()), a, old(reqs[a].pos), old(reqs[a].sectors) + n)
    {
      reqs := reqs[a := reqs[a].(sectors := reqs[a].sectors + n)];
    }

    method Free(a: Id, b: Id)
      requires b in reqs
      modifies this
      ensures View() == Freed(old(View()), a, b)
    {
      if reqs[b].queued {
        nrSorted := nrSorted - 1;
      }
      lastMerge := Some(a);
      reqs := reqs - {b};
    }

    /** The end of attempt_merge: `a` takes over the bios of `b`, the index follows, `b` is freed. */
    method Absorb(a: Id, b: Id)
      requires a in reqs && b in reqs && a != b && |buckets| == BUCKETS && HashOk(h)
      modifies this
      ensures View() == Merged(old(View()), h, a, b)
    {
      hide Unhash, Repositioned, Freed;
      Grow(a, reqs[b].sectors);
      RepositionFields(View(), h, a);
      Reposition(a);
      UnhashFields(View(), b);
      if reqs[b].queued {
        HashDel(b);
      }
      Free(a, b);
    }

    method MergeRequests(a: Id, b: Id)
      requires Inv(View(), h) && a in reqs && b in reqs && a != b && reqs[a].queued
      modifies this
      ensures HashOk(h) && old(|buckets|) == BUCKETS
      ensures Inv(View(), h) && View() == Merged(old(View()), h, a, b)
    {
      hide Inv, Merged;
      HashBound(View(), h);
      MergedKeeps(View(), h, a, b);
      Absorb(a, b);
    }

    /** elv_attempt_insert_merge. */
    method AttemptInsertMerge(first: Id, may: May, policy: Merging) returns (merged: bool)
      requires Inv(View(), h) && first in reqs && !reqs[first].queued
      modifies this
      ensures Inv(View(), h) && (View(), merged) == InsertMerged(old(View()), h, may, policy, first)
    {
      hide Inv, Cascade, Merged, Find, Fits;
      HashBound(View(), h);
      InsertMergedKeeps(View(), h, may, policy, first, 0);
      if policy == Never {
        return false;
      }
      if lastMerge.Some? && CanMerge(View(), may, lastMerge.value, first) {
        CachedIsQueued(View(), h);
        MergeRequests(lastMerge.value, first);
        return true;
      }
      if policy == OneHit {
        return false;
      }
      var x := first;
      merged := false;
      ghost var result := Cascade(View(), h, may, x);
      while true
        invariant Inv(View(), h) && x in reqs
        invariant Cascade(View(), h, may, x).0 == result.0
        invariant merged || Cascade(View(), h, may, x) == result
        invariant merged ==> result.1
        decreases |reqs|
      {
        CascadeStep(View(), h, may, x);
        var found := HashFind(reqs[x].pos);
        if found.None? || !CanMerge(View(), may, found.value, x) {
          return;
        }
        MergeRequests(found.value, x);
        merged := true;
        x := found.value;
      }
    }

    /** __elv_add_request for sorted insertion, with or without a try at merging. */
    method AddRequest(x: Id, pos: nat, sectors: nat, mergeable: bool, may: May, policy: Merging)
      requires Inv(View(), h) && x !in reqs && sectors > 0
      modifies this
      ensures Inv(View(), h) && View() == Apply(old(View()), h, may, InsertMerge(x, pos, sectors, mergeable, policy))
    {
      hide Inv, InsertMerged, AddHash;
      HashBound(View(), h);
      ApplyKeeps(View(), h, may, InsertMerge(x, pos, sectors, mergeable, policy));
      ArrivedKeeps(View(), h, x, pos, sectors, mergeable);
      reqs := reqs[x := Rq(pos, sectors, mergeable, false, false)];
      InsertMergedKeeps(View(), h, may, policy, x, 0);
      var merged := AttemptInsertMerge(x, may, policy);
      if !merged {
        HashBound(View(), h);
        PositiveSize(View(), h, x);
        reqs := reqs[x := reqs[x].(queued := true)];
        nrSorted := nrSorted + 1;
        if reqs[x].mergeable {
          AddHashFields(View(), h, x);
          HashAdd(x);
          if lastMerge.None? {
            lastMerge := Some(x);
          }
        }
      }
    }

    /** The tail of a bio back merge in blk_queue_bio. */
    method BackMerge(x: Id, n: nat, next: Option<Id>, may: May)
      requires Inv(View(), h) && Enabled(View(), BioBack(x, n, next))
      modifies this
      ensures Inv(View(), h) && View() == Apply(old(View()), h, may, BioBack(x, n, next))
    {
      hide Inv, Merged, Repositioned;
      HashBound(View(), h);
      BackMergedKeeps(View(), h, may, x, n, next);
      reqs := reqs[x := reqs[x].(sectors := reqs[x].sectors + n)];
      if next.Some? && CanMerge(View(), may, x, next.value) {
        Absorb(x, next.value);
      } else {
        Reposition(x);
        lastMerge := Some(x);
      }
    }

    /** The tail of a bio front merge in blk_queue_bio. */
    method FrontMerge(x: Id, n: nat, prev: Option<Id>, may: May)
      requires Inv(View(), h) && Enabled(View(), BioFront(x, n, prev))
      modifies this
      ensures Inv(View(), h) && View() == Apply(old(View()), h, may, BioFront(x, n, prev))
    {
      hide Inv, Merged;
      HashBound(View(), h);
      FrontMergedKeeps(View(), h, may, x, n, prev);
      FrontGrowthKeeps(View(), h, x, n);
      reqs := reqs[x := reqs[x].(pos := reqs[x].pos - n, sectors := reqs[x].sectors + n)];
      if prev.Some? && CanMerge(View(), may, prev.value, x) {
        MergeRequests(prev.value, x);
      } else {
        lastMerge := Some(x);
      }
    }

    /** elv_dispatch_add_tail. */
    method DispatchAddTail(x: Id)
      requires Inv(View(), h) && x in reqs && reqs[x].queued
      modifies this
      ensures Inv(View(), h) && View() == Dispatched(old(View()), x)
    {
      hide Inv, Unhash;
      DispatchedKeeps(View(), h, x);
      UnhashFields(View(), x);
      HashDel(x);
      if lastMerge == Some(x) {
        lastMerge := None;
      }
      nrSorted := nrSorted - 1;
      reqs := reqs[x := reqs[x].(queued := false)];
      dispatched := dispatched + [x];
    }
  }

  lemma CachedIsQueued(s: State, h: Hash)
    requires Inv(s, h) && s.lastMerge.Some?
    ensures s.lastMerge.value in s.reqs && s.reqs[s.lastMerge.value].queued
  {
  }

  /** One round of the loop. */
  lemma CascadeStep(s: State, h: Hash, may: May, x: Id)
    requires Inv(s, h) && x in s.reqs
    ensures HashOk(h) && |s.buckets| == BUCKETS
    ensures var (t, found) := Find(s, h, s.reqs[x].pos);
      && Inv(t, h) && |t.buckets| == BUCKETS && x in t.reqs
      && found != Some(x)
      && (found.Some? && CanMerge(t, may, found.value, x) ==>
        && t.reqs[found.value].queued && Inv(Merged(t, h, found.value, x), h)
        && found.value in Merged(t, h, found.value, x).reqs && |Merged(t, h, found.value, x).reqs| < |s.reqs|
        && Cascade(s, h, may, x) == (Cascade(Merged(t, h, found.value, x), h, may, found.value).0, true))
      && (!(found.Some? && CanMerge(t, may, found.value, x)) ==> Cascade(s, h, may, x) == (t, false))
  {
    hide Inv, Merged, Find;
    HashBound(s, h);
    FindIsScan(s, h, s.reqs[x].pos);
    var (t, found) := Find(s, h, s.reqs[x].pos);
    HashBound(t, h);
    FoundIsOther(s, h, x, s.reqs[x].pos);
    if found.Some? && CanMerge(t, may, found.value, x) {
      PositiveSize(t, h, found.value);
      MergedKeeps(t, h, found.value, x);
      MergedHas(t, h, found.value, x);
      SameCount(s.reqs, t.reqs);
    }
  }
}
