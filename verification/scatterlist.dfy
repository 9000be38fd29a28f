/** The loops of blk-merge.c over the vectors of a list of bios: recounting segments and mapping a scatterlist. */
module Scatterlist {
  import opened Arithmetic
  import opened Segments

  /** A bio: its vectors, and the segment counter and sizes recorded with it. */
  datatype Bio = Bio(bvs: seq<Bvec>, phys: nat, front: nat, back: nat)

  /** All vectors of a list of bios, in order. */
  function Vectors(bios: seq<Bio>): seq<Bvec> {
    if bios == [] then [] else bios[0].bvs + Vectors(bios[1..])
  }

  lemma {:induction false} VectorsConcat(a: seq<Bio>, b: seq<Bio>)
    ensures Vectors(a + b) == Vectors(a) + Vectors(b)
  {
    if a == [] {
      assert a + b == b;
    } else {
      assert (a + b)[1..] == a[1..] + b;
      VectorsConcat(a[1..], b);
    }
  }

  // ---- the memory that vectors and scatterlist entries describe ----

  function Span(start: nat, len: nat): seq<nat> {
    seq(len, i => start + i)
  }

  /** Physical addresses, byte by byte; scatterlist entries are page, offset and length too. */
  function Bytes(bvs: seq<Bvec>): seq<nat> {
    if bvs == [] then [] else Span(bvs[0].Phys(), bvs[0].len) + Bytes(bvs[1..])
  }

  lemma {:induction false} BytesConcat(a: seq<Bvec>, b: seq<Bvec>)
    ensures Bytes(a + b) == Bytes(a) + Bytes(b)
  {
    if a == [] {
      assert a + b == b;
    } else {
      assert (a + b)[1..] == a[1..] + b;
      BytesConcat(a[1..], b);
    }
  }

  lemma BytesOne(b: Bvec)
    ensures Bytes([b]) == Span(b.Phys(), b.len)
  {
    assert [b][1..] == [];
  }

  /** Growing the last entry by an adjacent vector appends that vector's bytes. */
  lemma GrowLast(x: seq<Bvec>, l: Bvec, b: Bvec)
    requires l.Phys() + l.len == b.Phys()
    ensures Bytes(x + [l.(len := l.len + b.len)]) == Bytes(x + [l]) + Bytes([b])
  {
    hide Bytes, Span;
    var l' := l.(len := l.len + b.len);
    BytesConcat(x, [l']);
    BytesConcat(x, [l]);
    BytesOne(l');
    BytesOne(l);
    BytesOne(b);
    SpanSplit(l.Phys(), l.len, b.len);
    assert Bytes(x) + (Bytes([l]) + Bytes([b])) == (Bytes(x) + Bytes([l])) + Bytes([b]);
  }

  lemma SpanSplit(start: nat, a: nat, b: nat)
    ensures Span(start, a + b) == Span(start, a) + Span(start + a, b)
  {
  }

  // ---- mapping ----

  /** An entry is a vector, or vectors joined within the segment size and, if none is empty, within one window. */
  ghost predicate LegalEntry(q: Queue, bvs: seq<Bvec>, e: Bvec)
    requires q.Ok()
  {
    e in bvs || (q.cluster && e.len <= q.maxSegSize && (Filled(bvs) ==> e.Phys() / q.window == (e.Phys() + e.len - 1) / q.window))
  }

  ghost predicate LegalEntries(q: Queue, bvs: seq<Bvec>, sgs: seq<Bvec>)
    requires q.Ok()
  {
    forall i :: 0 <= i < |sgs| ==> LegalEntry(q, bvs, sgs[i])
  }

  /** The last entry begins in the window in which the last vector begins. */
  predicate SameStart(q: Queue, bvs: seq<Bvec>, l: Bvec, prev: Bvec)
    requires q.Ok()
  {
    Filled(bvs) ==> l.Phys() <= prev.Phys() && l.Phys() / q.window == prev.Phys() / q.window
  }

  ghost predicate Lawful(q: Queue, done: seq<Bvec>, sgs: seq<Bvec>, prev: Bvec)
    requires q.Ok()
  {
    LegalEntries(q, done, sgs) && (sgs != [] ==> SameStart(q, done, sgs[|sgs| - 1], prev))
  }

  /** What is left to open after `done` vectors, given the entries made so far. */
  ghost predicate Mapped(q: Queue, done: seq<Bvec>, rest: seq<Bvec>, sgs: seq<Bvec>, prev: Bvec)
    requires q.Ok()
  {
    && Lawful(q, done, sgs, prev)
    && (sgs == [] <==> done == [])
    && (done != [] ==> prev == done[|done| - 1])
    && Bytes(sgs) == Bytes(done)
    && (done != [] ==> EndsWith(sgs, prev) && Counts(q, done, rest, sgs, prev))
  }

  /** The last entry ends where the vector `prev` ends. */
  predicate EndsWith(sgs: seq<Bvec>, prev: Bvec) {
    sgs != [] && sgs[|sgs| - 1].Phys() + sgs[|sgs| - 1].len == prev.Phys() + prev.len
  }

  /** The entries made so far and those still to be opened are as many as there are segments. */
  predicate Counts(q: Queue, done: seq<Bvec>, rest: seq<Bvec>, sgs: seq<Bvec>, prev: Bvec)
    requires q.Ok() && sgs != []
  {
    |sgs| + More(q, prev, sgs[|sgs| - 1].len, rest) == SegmentCount(q, done + rest)
  }

  /** __blk_segment_map_sg: extend the last entry or start another one. */
  function MapOne(q: Queue, prev: Bvec, sgs: seq<Bvec>, b: Bvec): seq<Bvec>
    requires q.Ok()
  {
    if sgs != [] && CanJoin(q, sgs[|sgs| - 1].len, prev, b) then
      var n := |sgs| - 1;
      sgs[..n] + [sgs[n].(len := sgs[n].len + b.len)]
    else sgs + [b]
  }

  lemma MapOneLegal(q: Queue, done: seq<Bvec>, b: Bvec, sgs: seq<Bvec>, prev: Bvec)
    requires q.Ok() && Lawful(q, done, sgs, prev) && (sgs == [] <==> done == [])
    requires sgs != [] ==> prev == done[|done| - 1] && EndsWith(sgs, prev)
    ensures Lawful(q, done + [b], MapOne(q, prev, sgs, b), b)
  {
    var sgs' := MapOne(q, prev, sgs, b);
    var all := done + [b];
    FilledPrefix(done, b);
    forall i | 0 <= i < |sgs| ensures LegalEntry(q, all, sgs[i]) {
      assert LegalEntry(q, done, sgs[i]);
    }
    if sgs != [] && CanJoin(q, sgs[|sgs| - 1].len, prev, b) {
      var n := |sgs| - 1;
      var l := sgs[n];
      if Filled(all) {
        SameWindow(q.window, prev.Phys(), b.Phys(), b.Phys() + b.len - 1);
      }
      assert LegalEntry(q, all, sgs'[n]);
    } else {
      assert all[|done|] == b;
    }
  }

  lemma FilledPrefix(done: seq<Bvec>, b: Bvec)
    ensures Filled(done + [b]) ==> Filled(done) && b.len > 0
  {
    var all := done + [b];
    assert all[|done|] == b && forall i :: 0 <= i < |done| ==> all[i] == done[i];
  }

  lemma SameWindow(w: nat, x: nat, y: nat, z: nat)
    requires w >= 1 && x <= y <= z && x / w == z / w
    ensures y / w == x / w
  {
    DivMono(x, y, w);
    DivMono(y, z, w);
  }

  lemma MapOneKeeps(q: Queue, done: seq<Bvec>, b: Bvec, rest: seq<Bvec>, sgs: seq<Bvec>, prev: Bvec)
    requires q.Ok() && Mapped(q, done, [b] + rest, sgs, prev)
    ensures Mapped(q, done + [b], rest, MapOne(q, prev, sgs, b), b)
  {
    hide Lawful, Bytes, Counts, EndsWith;
    MapOneLegal(q, done, b, sgs, prev);
    MapOneBytes(q, done, b, sgs, prev);
    MapOneCounts(q, done, b, rest, sgs, prev);
  }

  lemma MapOneCounts(q: Queue, done: seq<Bvec>, b: Bvec, rest: seq<Bvec>, sgs: seq<Bvec>, prev: Bvec)
    requires q.Ok() && (sgs == [] <==> done == [])
    requires done != [] ==> EndsWith(sgs, prev) && Counts(q, done, [b] + rest, sgs, prev)
    ensures var sgs' := MapOne(q, prev, sgs, b); EndsWith(sgs', b) && Counts(q, done + [b], rest, sgs', b)
  {
    assert ([b] + rest)[0] == b && ([b] + rest)[1..] == rest;
    assert done + [b] + rest == done + ([b] + rest);
    if done == [] {
      assert done + ([b] + rest) == [b] + rest;
      assert MapOne(q, prev, sgs, b) == [b];
    }
  }

  lemma MapOneBytes(q: Queue, done: seq<Bvec>, b: Bvec, sgs: seq<Bvec>, prev: Bvec)
    requires q.Ok() && Bytes(sgs) == Bytes(done)
    requires sgs != [] ==> EndsWith(sgs, prev)
    ensures Bytes(MapOne(q, prev, sgs, b)) == Bytes(done + [b])
  {
    hide Bytes;
    BytesConcat(done, [b]);
    if sgs != [] && CanJoin(q, sgs[|sgs| - 1].len, prev, b) {
      var n := |sgs| - 1;
      assert sgs == sgs[..n] + [sgs[n]];
      GrowLast(sgs[..n], sgs[n], b);
    } else {
      BytesConcat(sgs, [b]);
    }
  }

  /** bio_for_each_segment. */
  method MapBio(q: Queue, bvs: seq<Bvec>, sgs: seq<Bvec>, prev: Bvec, ghost done: seq<Bvec>, ghost later: seq<Bvec>)
    returns (sgs': seq<Bvec>, prev': Bvec)
    requires q.Ok() && Mapped(q, done, bvs + later, sgs, prev)
    ensures Mapped(q, done + bvs, later, sgs', prev')
  {
    hide Mapped, MapOne;
    sgs', prev' := sgs, prev;
    assert bvs[..0] == [] && bvs[0..] == bvs && done + [] == done;
    for j := 0 to |bvs|
      invariant Mapped(q, done + bvs[..j], bvs[j..] + later, sgs', prev')
    {
      assert bvs[j..] + later == [bvs[j]] + (bvs[j + 1..] + later);
      assert done + bvs[..j + 1] == done + bvs[..j] + [bvs[j]];
      MapOneKeeps(q, done + bvs[..j], bvs[j], bvs[j + 1..] + later, sgs', prev');
      sgs' := MapOne(q, prev', sgs', bvs[j]);
      prev' := bvs[j];
    }
    assert bvs[..|bvs|] == bvs && bvs[|bvs|..] + later == later;
  }

  /** __blk_bios_map_sg: one entry per greedy segment, describing the same bytes in the same order. */
  method MapSg(q: Queue, bios: seq<Bio>) returns (sgs: seq<Bvec>)
    requires q.Ok()
    ensures |sgs| == SegmentCount(q, Vectors(bios))
    ensures Bytes(sgs) == Bytes(Vectors(bios)) && LegalEntries(q, Vectors(bios), sgs)
  {
    hide Mapped, Bytes, SegmentCount;
    sgs := [];
    var prev := Bvec(0, 0, 0);
    ghost var done: seq<Bvec> := [];
    StartMap(q, Vectors(bios), prev);
    assert bios[0..] == bios;
    for i := 0 to |bios|
      invariant Vectors(bios) == done + Vectors(bios[i..])
      invariant Mapped(q, done, Vectors(bios[i..]), sgs, prev)
    {
      assert bios[i..][0] == bios[i] && bios[i..][1..] == bios[i + 1..];
      sgs, prev := MapBio(q, bios[i].bvs, sgs, prev, done, Vectors(bios[i + 1..]));
      assert done + bios[i].bvs + Vectors(bios[i + 1..]) == done + (bios[i].bvs + Vectors(bios[i + 1..]));
      done := done + bios[i].bvs;
    }
    assert bios[|bios|..] == [] && done + [] == done;
    EndMap(q, done, sgs, prev);
  }

  lemma StartMap(q: Queue, bvs: seq<Bvec>, prev: Bvec)
    requires q.Ok()
    ensures Mapped(q, [], bvs, [], prev) && [] + bvs == bvs
  {
  }

  lemma EndMap(q: Queue, done: seq<Bvec>, sgs: seq<Bvec>, prev: Bvec)
    requires q.Ok() && Mapped(q, done, [], sgs, prev)
    ensures |sgs| == SegmentCount(q, done) && Bytes(sgs) == Bytes(done) && LegalEntries(q, done, sgs)
  {
    assert done + [] == done;
  }

  // ---- recounting ----

  /** The counters of the recount after `done` vectors, the last of which is `prev`. */
  ghost predicate Recounted(q: Queue, done: seq<Bvec>, rest: seq<Bvec>, nr: nat, size: nat, old_: nat, front: nat)
    requires q.Ok()
  {
    if done == [] then nr == 0 && size == 0 && front == old_
    else
      var all, prev := done + rest, done[|done| - 1];
      var joins := GreedyJoins(q, prev, size, rest);
      && nr >= 1
      && nr + More(q, prev, size, rest) == SegmentCount(q, all)
      && LastSize(size, rest, joins) == Tail(all, GreedyGroups(q, all))
      && (nr == 1 ==> FirstSize(size, rest, joins) == Head(all, GreedyGroups(q, all)) && front == old_)
      && (nr > 1 ==> front == Max(old_, Head(all, GreedyGroups(q, all))))
  }

  lemma RecountStep(q: Queue, done: seq<Bvec>, b: Bvec, rest: seq<Bvec>, nr: nat, size: nat, old_: nat, front: nat, prev: Bvec)
    requires q.Ok() && Recounted(q, done, [b] + rest, nr, size, old_, front) && (done != [] ==> prev == done[|done| - 1])
    ensures if done != [] && CanJoin(q, size, prev, b) then Recounted(q, done + [b], rest, nr, size + b.len, old_, front)
            else Recounted(q, done + [b], rest, nr + 1, b.len, old_, if nr == 1 then Max(front, size) else front)
  {
    var next := [b] + rest;
    assert next[0] == b && next[1..] == rest;
    assert done + [b] + rest == done + next;
    assert (done + [b])[|done|] == b;
    if done == [] {
      assert done + next == next;
      assert GreedyGroups(q, next) == [false] + GreedyJoins(q, b, b.len, rest);
      assert ([false] + GreedyJoins(q, b, b.len, rest))[1..] == GreedyJoins(q, b, b.len, rest);
    } else if CanJoin(q, size, prev, b) {
      var j := GreedyJoins(q, b, size + b.len, rest);
      assert GreedyJoins(q, prev, size, next) == [true] + j;
      assert ([true] + j)[1..] == j;
    } else {
      var j := GreedyJoins(q, b, b.len, rest);
      assert GreedyJoins(q, prev, size, next) == [false] + j;
      assert ([false] + j)[1..] == j;
    }
  }

  lemma RecountEnd(q: Queue, done: seq<Bvec>, nr: nat, size: nat, old_: nat, front: nat)
    requires q.Ok() && done != [] && Recounted(q, done, [], nr, size, old_, front)
    ensures nr == SegmentCount(q, done) && size == Tail(done, GreedyGroups(q, done))
    ensures (if nr == 1 then Max(front, size) else front) == Max(old_, Head(done, GreedyGroups(q, done)))
  {
    assert done + [] == done;
  }

  lemma RecountStart(q: Queue, bvs: seq<Bvec>, old_: nat)
    requires q.Ok()
    ensures Recounted(q, [], bvs, 0, 0, old_, old_) && [] + bvs == bvs
  {
  }

  /** The local variables of the recount. */
  datatype Counters = Counters(nr: nat, size: nat, front: nat, prev: Bvec)

  /** Without merging, every vector is a segment. */
  predicate Single(done: seq<Bvec>, c: Counters, old_: nat) {
    && c.nr == |done|
    && c.size == (if done == [] then 0 else done[|done| - 1].len)
    && c.front == if |done| <= 1 then old_ else Max(old_, done[0].len)
  }

  /** What the recount knows after `done` vectors, with merging or without. */
  ghost predicate Tally(q: Queue, noSgMerge: bool, done: seq<Bvec>, rest: seq<Bvec>, c: Counters, old_: nat)
    requires q.Ok()
  {
    && (done != [] ==> c.prev == done[|done| - 1])
    && (c.nr == 0 <==> done == [])
    && if noSgMerge then Single(done, c, old_) else Recounted(q, done, rest, c.nr, c.size, old_, c.front)
  }

  /** The body of the recount loop, for one vector. */
  function CountOne(q: Queue, noSgMerge: bool, c: Counters, b: Bvec): Counters
    requires q.Ok()
  {
    if !noSgMerge && c.nr > 0 && CanJoin(q, c.size, c.prev, b) then c.(size := c.size + b.len, prev := b)
    else Counters(c.nr + 1, b.len, if c.nr == 1 then Max(c.front, c.size) else c.front, b)
  }

  lemma CountOneKeeps(q: Queue, noSgMerge: bool, done: seq<Bvec>, b: Bvec, rest: seq<Bvec>, c: Counters, old_: nat)
    requires q.Ok() && Tally(q, noSgMerge, done, [b] + rest, c, old_)
    ensures Tally(q, noSgMerge, done + [b], rest, CountOne(q, noSgMerge, c, b), old_)
  {
    if !noSgMerge {
      hide Recounted;
      RecountStep(q, done, b, rest, c.nr, c.size, old_, c.front, c.prev);
    }
  }

  /** bio_for_each_segment. */
  method RecountBio(q: Queue, noSgMerge: bool, bvs: seq<Bvec>, c: Counters, ghost done: seq<Bvec>, ghost later: seq<Bvec>, ghost old_: nat)
    returns (c': Counters)
    requires q.Ok() && Tally(q, noSgMerge, done, bvs + later, c, old_)
    ensures Tally(q, noSgMerge, done + bvs, later, c', old_)
  {
    hide Tally;
    c' := c;
    assert bvs[..0] == [] && bvs[0..] == bvs && done + [] == done;
    for j := 0 to |bvs|
      invariant Tally(q, noSgMerge, done + bvs[..j], bvs[j..] + later, c', old_)
    {
      assert bvs[j..] + later == [bvs[j]] + (bvs[j + 1..] + later);
      assert done + bvs[..j + 1] == done + bvs[..j] + [bvs[j]];
      CountOneKeeps(q, noSgMerge, done + bvs[..j], bvs[j], bvs[j + 1..] + later, c', old_);
      c' := CountOne(q, noSgMerge, c', bvs[j]);
    }
    assert bvs[..|bvs|] == bvs && bvs[|bvs|..] + later == later;
  }

  /** for_each_bio. */
  method RecountBios(q: Queue, noSgMerge: bool, bios: seq<Bio>, front: nat) returns (c: Counters)
    requires q.Ok()
    ensures Tally(q, noSgMerge, Vectors(bios), [], c, front)
  {
    hide Tally;
    c := Counters(0, 0, front, Bvec(0, 0, 0));
    ghost var done: seq<Bvec> := [];
    TallyStart(q, noSgMerge, Vectors(bios), c, front);
    assert bios[0..] == bios;
    for i := 0 to |bios|
      invariant Vectors(bios) == done + Vectors(bios[i..])
      invariant Tally(q, noSgMerge, done, Vectors(bios[i..]), c, front)
    {
      assert bios[i..][0] == bios[i] && bios[i..][1..] == bios[i + 1..];
      c := RecountBio(q, noSgMerge, bios[i].bvs, c, done, Vectors(bios[i + 1..]), front);
      assert done + bios[i].bvs + Vectors(bios[i + 1..]) == done + (bios[i].bvs + Vectors(bios[i + 1..]));
      done := done + bios[i].bvs;
    }
    assert bios[|bios|..] == [] && done + [] == done;
  }

  /** Sizes of the first and the last segment, when vectors are merged and when they are not. */
  function FirstSegment(q: Queue, noSgMerge: bool, bvs: seq<Bvec>): nat
    requires q.Ok() && bvs != []
  {
    if noSgMerge then bvs[0].len else Head(bvs, GreedyGroups(q, bvs))
  }

  function LastSegment(q: Queue, noSgMerge: bool, bvs: seq<Bvec>): nat
    requires q.Ok() && bvs != []
  {
    if noSgMerge then bvs[|bvs| - 1].len else Tail(bvs, GreedyGroups(q, bvs))
  }

  /** __blk_recalc_rq_segments: the count, and the largest first and last segment seen so far. */
  method RecalcSegments(q: Queue, bios: seq<Bio>, noSgMerge: bool) returns (nr: nat, front: nat, back: nat)
    requires q.Ok()
    ensures nr == if noSgMerge then |Vectors(bios)| else SegmentCount(q, Vectors(bios))
    ensures var v := Vectors(bios);
            v != [] ==>
              && front == Max(bios[0].front, FirstSegment(q, noSgMerge, v))
              && back == Max(bios[|bios| - 1].back, LastSegment(q, noSgMerge, v))
    ensures bios != [] && Vectors(bios) == [] ==> front == bios[0].front && back == bios[|bios| - 1].back
  {
    hide Tally, FirstSegment, LastSegment;
    nr, front, back := 0, 0, 0;
    if bios == [] {
      return;
    }
    var c := RecountBios(q, noSgMerge, bios, bios[0].front);
    TallyEnd(q, noSgMerge, Vectors(bios), c, bios[0].front);
    nr := c.nr;
    front := if nr == 1 && c.size > c.front then c.size else c.front;
    back := if c.size > bios[|bios| - 1].back then c.size else bios[|bios| - 1].back;
  }

  lemma TallyStart(q: Queue, noSgMerge: bool, bvs: seq<Bvec>, c: Counters, old_: nat)
    requires q.Ok() && c.nr == 0 && c.size == 0 && c.front == old_
    ensures Tally(q, noSgMerge, [], bvs, c, old_) && [] + bvs == bvs
  {
    RecountStart(q, bvs, old_);
  }

  lemma TallyEnd(q: Queue, noSgMerge: bool, done: seq<Bvec>, c: Counters, old_: nat)
    requires q.Ok() && Tally(q, noSgMerge, done, [], c, old_)
    ensures c.nr == if noSgMerge then |done| else SegmentCount(q, done)
    ensures done != [] ==>
              && c.size == LastSegment(q, noSgMerge, done)
              && (if c.nr == 1 then Max(c.front, c.size) else c.front) == Max(old_, FirstSegment(q, noSgMerge, done))
    ensures done == [] ==> c.size == 0 && c.front == old_
  {
    if done != [] && !noSgMerge {
      RecountEnd(q, done, c.nr, c.size, old_, c.front);
    }
  }

  /** The recount leaves a bio with counters that bound its scatterlist. */
  lemma RecountIsCounted(q: Queue, bvs: seq<Bvec>, front: nat, back: nat)
    requires q.Ok() && bvs != []
    requires front >= Head(bvs, GreedyGroups(q, bvs)) && back >= Tail(bvs, GreedyGroups(q, bvs))
    ensures Counted(q, bvs, SegmentCount(q, bvs), front, back)
  {
    var joins := GreedyGroups(q, bvs);
    assert Groups(q, bvs, joins) && Opens(joins) == SegmentCount(q, bvs);
  }
}
