/** blk_recount_segments: the counters it leaves with a bio, and when a later merge counts too few segments. */
module Recounting {
  import opened Arithmetic
  import opened Segments
  import opened Scatterlist
  import opened RequestMerging

  /** On a queue that does not merge, a short bio gets its vector count and keeps its recorded sizes. */
  function Recount(q: Queue, noSgMerge: bool, bio: Bio): Bio
    requires q.Ok() && bio.bvs != []
  {
    if noSgMerge && |bio.bvs| < q.maxSegs then bio.(phys := |bio.bvs|)
    else
      var joins := GreedyGroups(q, bio.bvs);
      Bio(bio.bvs, SegmentCount(q, bio.bvs), Max(bio.front, Head(bio.bvs, joins)), Max(bio.back, Tail(bio.bvs, joins)))
  }

  function Singles(n: nat): seq<bool> { seq(n, i => false) }

  lemma {:induction false} SinglesGroup(q: Queue, prev: Bvec, size: nat, bvs: seq<Bvec>)
    requires q.Ok()
    ensures Grouping(q, prev, size, bvs, Singles(|bvs|)) && Opens(Singles(|bvs|)) == |bvs|
    ensures FirstSize(size, bvs, Singles(|bvs|)) == size
    ensures LastSize(size, bvs, Singles(|bvs|)) == if bvs == [] then size else bvs[|bvs| - 1].len
    decreases |bvs|
  {
    if bvs != [] {
      assert Singles(|bvs|)[1..] == Singles(|bvs| - 1);
      SinglesGroup(q, bvs[0], bvs[0].len, bvs[1..]);
    }
  }

  lemma {:induction false} AllOpen(joins: seq<bool>)
    ensures Opens(joins) <= |joins|
    ensures Opens(joins) == |joins| ==> joins == Singles(|joins|)
  {
    if joins != [] {
      AllOpen(joins[1..]);
      assert joins == [joins[0]] + joins[1..];
      assert Opens(joins) == |joins| ==> [false] + Singles(|joins| - 1) == Singles(|joins|);
    }
  }

  /** A counter of one segment per vector is sound exactly when the recorded sizes cover the outer vectors. */
  lemma VectorCountIsCounted(q: Queue, bvs: seq<Bvec>, front: nat, back: nat)
    requires q.Ok() && bvs != []
    ensures Counted(q, bvs, |bvs|, front, back) <==> bvs[0].len <= front && bvs[|bvs| - 1].len <= back
  {
    var all := Singles(|bvs|);
    assert all[1..] == Singles(|bvs| - 1);
    SinglesGroup(q, bvs[0], bvs[0].len, bvs[1..]);
    assert Groups(q, bvs, all) && Opens(all) == |bvs|;
    if Counted(q, bvs, |bvs|, front, back) {
      var joins :| Groups(q, bvs, joins) && Opens(joins) == |bvs| && Head(bvs, joins) <= front && Tail(bvs, joins) <= back;
      AllOpen(joins);
    }
  }

  /**
   blk_recount_segments leaves counters that every later merge can rely on, exactly unless it takes the
   vector count of a bio whose recorded sizes do not cover its first and last vector.
   */
  lemma RecountIsSound(q: Queue, noSgMerge: bool, bio: Bio)
    requires q.Ok() && bio.bvs != []
    ensures BioCounted(q, Recount(q, noSgMerge, bio)) <==>
            (noSgMerge && |bio.bvs| < q.maxSegs ==> bio.bvs[0].len <= bio.front && bio.bvs[|bio.bvs| - 1].len <= bio.back)
  {
    if noSgMerge && |bio.bvs| < q.maxSegs {
      VectorCountIsCounted(q, bio.bvs, bio.front, bio.back);
    } else {
      var r := Recount(q, noSgMerge, bio);
      RecountIsCounted(q, bio.bvs, r.front, r.back);
    }
  }

  /** Without recorded sizes, merging two requests takes a segment off that the scatterlist needs. */
  lemma UnsizedBiosUndercount(q: Queue, x: Bvec, y: Bvec)
    requires q == Queue(true, 4096, 128, 65536, 0) && x == Bvec(0, 0, 4096) && y == Bvec(1, 0, 4096)
    ensures var a, b := Recount(q, true, Bio([x], 0, 0, 0)), Recount(q, true, Bio([y], 0, 0, 0));
            var r := Joined(One(a), One(b));
            r.NonEmpty() && r.Nr(q) == 1 && SegmentCount(q, r.Bvs()) == 2
  {
    var a, b := One(Bio([x], 1, 0, 0)), One(Bio([y], 1, 0, 0));
    assert Joinable(q, x, y) && !CanJoin(q, 4096, x, y);
    hide Joinable, CanJoin;
    assert a.NonEmpty() && b.NonEmpty() && a.Bvs() == [x] && b.Bvs() == [y];
    assert Joined(a, b).NonEmpty() && Joined(a, b).Touch(q);
    assert [x] + [y] == [x, y] && [x, y][1..] == [y] && [y][1..] == [];
    assert More(q, x, 4096, [y]) == 1 + More(q, y, 4096, []);
  }

  // ---- when a later merge takes off a segment that the scatterlist needs ----

  /** No vector joins the one before it, so that every vector is a segment of its own. */
  predicate Apart(q: Queue, bvs: seq<Bvec>)
    requires q.Ok()
  {
    forall i :: 0 <= i < |bvs| - 1 ==> !CanJoin(q, bvs[i].len, bvs[i], bvs[i + 1])
  }

  lemma {:induction false} MoreAtMost(q: Queue, prev: Bvec, size: nat, bvs: seq<Bvec>)
    requires q.Ok()
    ensures More(q, prev, size, bvs) <= |bvs|
    decreases |bvs|
  {
    if bvs != [] {
      MoreAtMost(q, bvs[0], if CanJoin(q, size, prev, bvs[0]) then size + bvs[0].len else bvs[0].len, bvs[1..]);
    }
  }

  lemma {:induction false} ApartIsFull(q: Queue, bvs: seq<Bvec>)
    requires q.Ok() && bvs != []
    ensures Apart(q, bvs) <==> SegmentCount(q, bvs) == |bvs|
    decreases |bvs|
  {
    if |bvs| > 1 {
      var rest := bvs[1..];
      ApartIsFull(q, rest);
      var joins := CanJoin(q, bvs[0].len, bvs[0], bvs[1]);
      if joins {
        MoreAtMost(q, rest[0], bvs[0].len + rest[0].len, rest[1..]);
        assert !Apart(q, bvs);
      } else {
        assert SegmentCount(q, bvs) == 1 + SegmentCount(q, rest);
        ApartRest(q, bvs);
      }
    }
  }

  lemma ApartRest(q: Queue, bvs: seq<Bvec>)
    requires q.Ok() && |bvs| > 1 && !CanJoin(q, bvs[0].len, bvs[0], bvs[1])
    ensures Apart(q, bvs) <==> Apart(q, bvs[1..])
  {
    var rest := bvs[1..];
    if Apart(q, bvs) {
      forall i | 0 <= i < |rest| - 1 ensures !CanJoin(q, rest[i].len, rest[i], rest[i + 1]) {
        assert rest[i] == bvs[i + 1] && rest[i + 1] == bvs[i + 1 + 1];
      }
    }
    if Apart(q, rest) {
      forall i | 0 <= i < |bvs| - 1 ensures !CanJoin(q, bvs[i].len, bvs[i], bvs[i + 1]) {
        if i > 0 {
          assert rest[i - 1] == bvs[i] && rest[i] == bvs[i + 1];
        }
      }
    }
  }

  lemma ApartConcat(q: Queue, a: seq<Bvec>, b: seq<Bvec>)
    requires q.Ok() && a != [] && b != [] && Apart(q, a) && Apart(q, b)
    requires !CanJoin(q, a[|a| - 1].len, a[|a| - 1], b[0])
    ensures Apart(q, a + b)
  {
    var c := a + b;
    forall i | 0 <= i < |c| - 1 ensures !CanJoin(q, c[i].len, c[i], c[i + 1]) {
      if i < |a| - 1 {
        assert c[i] == a[i] && c[i + 1] == a[i + 1];
      } else if i >= |a| {
        assert c[i] == b[i - |a|] && c[i + 1] == b[i - |a| + 1];
      }
    }
  }

  /** The fewest bytes that do not fit into a segment with a vector of `len` bytes. */
  function Need(q: Queue, len: nat): (n: nat)
    ensures n >= 1 && n + len > q.maxSegSize
  {
    if len <= q.maxSegSize then q.maxSegSize + 1 - len else 1
  }

  /** A vector of `len` bytes at a physical address. */
  function At(phys: nat, len: nat): (b: Bvec)
    ensures b.Phys() == phys && b.len == len
  {
    Bvec(phys / PAGE_SIZE, phys % PAGE_SIZE, len)
  }

  /** Merging the two requests leaves a counter below the number of scatterlist entries. */
  predicate Undercounts(q: Queue, r: Built, next: Built)
    requires q.Ok() && r.NonEmpty() && next.NonEmpty()
  {
    Joined(r, next).Nr(q) < SegmentCount(q, r.Bvs() + next.Bvs())
  }

  /** A request whose vectors hold data and whose own counters are right. */
  ghost predicate Neighbour(q: Queue, r: Built)
    requires q.Ok()
  {
    r.WellCounted(q) && r.NonEmpty() && Filled(r.Bvs())
  }

  /** In front of `x` there is room in its window for bytes that do not fit with it but with `front` bytes. */
  predicate RoomBefore(q: Queue, x: Bvec, front: nat)
    requires q.Ok()
  {
    var n := Need(q, x.len);
    && q.cluster
    && n + front <= q.maxSegSize
    && n <= x.Phys()
    && (x.Phys() - n) / q.window == (x.Phys() + x.len - 1) / q.window
  }

  /** The same for the bytes behind `y`. */
  predicate RoomBehind(q: Queue, y: Bvec, back: nat)
    requires q.Ok()
  {
    var n := Need(q, y.len);
    && q.cluster
    && back + n <= q.maxSegSize
    && y.Phys() / q.window == (y.Phys() + y.len + n - 1) / q.window
  }

  // ---- segments are stretches of memory within one window ----

  /** From `start` to the end of `b` lies one stretch of memory within one window. */
  predicate Stretch(q: Queue, start: nat, b: Bvec)
    requires q.Ok()
  {
    b.len > 0 && start <= b.Phys() && start / q.window == (b.Phys() + b.len - 1) / q.window
  }

  lemma StretchOn(q: Queue, start: nat, a: Bvec, b: Bvec)
    requires q.Ok() && start <= a.Phys() && start / q.window == a.Phys() / q.window && a.len > 0 && b.len > 0 && Joinable(q, a, b)
    ensures Stretch(q, start, b) && start / q.window == b.Phys() / q.window
  {
    SameWindow(q.window, a.Phys(), b.Phys(), b.Phys() + b.len - 1);
  }

  /** The last segment ends with the last vector and begins `LastSize` bytes before its end, in the same window. */
  lemma {:induction false} LastStretch(q: Queue, prev: Bvec, size: nat, bvs: seq<Bvec>, joins: seq<bool>)
    requires q.Ok() && Grouping(q, prev, size, bvs, joins) && prev.len > 0 && Filled(bvs)
    requires prev.len <= size <= prev.Phys() + prev.len && (prev.Phys() + prev.len - size) / q.window == prev.Phys() / q.window
    ensures var l, t := Last(prev, bvs), LastSize(size, bvs, joins);
            && l.len <= t <= l.Phys() + l.len
            && (l.Phys() + l.len - t) / q.window == l.Phys() / q.window
    decreases |bvs|
  {
    if bvs != [] {
      var b := bvs[0];
      if joins[0] {
        StretchOn(q, prev.Phys() + prev.len - size, prev, b);
      }
      LastStretch(q, b, if joins[0] then size + b.len else b.len, bvs[1..], joins[1..]);
      assert Last(b, bvs[1..]) == Last(prev, bvs);
    }
  }

  lemma TailStretch(q: Queue, a: seq<Bvec>, j: seq<bool>, x: Bvec)
    requires q.Ok() && Groups(q, a, j) && Filled(a) && x.len > 0 && Joinable(q, a[|a| - 1], x)
    ensures 1 <= Tail(a, j) <= x.Phys()
    ensures (x.Phys() - Tail(a, j)) / q.window == (x.Phys() + x.len - 1) / q.window
  {
    LastStretch(q, a[0], a[0].len, a[1..], j[1..]);
    assert Last(a[0], a[1..]) == a[|a| - 1];
  }

  /** The open segment, begun at `start`, goes on to `FirstSize` bytes in the same window. */
  lemma {:induction false} FirstStretch(q: Queue, start: nat, prev: Bvec, size: nat, bvs: seq<Bvec>, joins: seq<bool>)
    requires q.Ok() && Grouping(q, prev, size, bvs, joins) && prev.len > 0 && Filled(bvs)
    requires start <= prev.Phys() && start / q.window == prev.Phys() / q.window == (prev.Phys() + prev.len - 1) / q.window
    ensures var e := prev.Phys() + prev.len + FirstSize(size, bvs, joins) - size;
            FirstSize(size, bvs, joins) >= size && start / q.window == (e - 1) / q.window
    decreases |bvs|
  {
    if bvs != [] && joins[0] {
      StretchOn(q, start, prev, bvs[0]);
      FirstStretch(q, start, bvs[0], size + bvs[0].len, bvs[1..], joins[1..]);
    }
  }

  // ---- the exact condition ----

  lemma OneFields(q: Queue, b: Bio)
    requires q.Ok() && b.bvs != []
    ensures var o := One(b);
            o.NonEmpty() && o.Bvs() == b.bvs && o.Nr(q) == b.phys && o.FrontSize(q) == b.front && o.BackSize(q) == b.back
  {
  }

  lemma MergedNr(q: Queue, r: Built, next: Built)
    requires q.Ok() && r.NonEmpty() && next.NonEmpty()
    ensures var m := Joined(r, next);
            m.NonEmpty() && m.Nr(q) == r.Nr(q) + next.Nr(q) - if m.Touch(q) then 1 else 0
  {
  }

  /** Merging takes off a segment only where the bio has none to spare and the parts look as if they touch. */
  lemma TightFront(q: Queue, r: Built, b: Bio)
    requires q.Ok() && Neighbour(q, r) && b.bvs != [] && b.phys == |b.bvs| && Undercounts(q, r, One(b))
    ensures Joined(r, One(b)).Touch(q) && Apart(q, b.bvs)
    ensures SegmentCount(q, r.Bvs() + b.bvs) == r.Nr(q) + |b.bvs|
  {
    hide Counted, SegmentCount;
    var k := GreedyGroups(q, b.bvs);
    OneFields(q, b);
    MergedNr(q, r, One(b));
    BuiltIsCounted(q, r);
    RecountIsCounted(q, b.bvs, Head(b.bvs, k), Tail(b.bvs, k));
    SeparateCounts(q, r.Bvs(), r.Nr(q), r.FrontSize(q), r.BackSize(q), b.bvs, Head(b.bvs, k), Tail(b.bvs, k));
    ApartIsFull(q, b.bvs);
  }

  lemma TightBack(q: Queue, b: Bio, r: Built)
    requires q.Ok() && Neighbour(q, r) && b.bvs != [] && b.phys == |b.bvs| && Undercounts(q, One(b), r)
    ensures Joined(One(b), r).Touch(q) && Apart(q, b.bvs)
    ensures SegmentCount(q, b.bvs + r.Bvs()) == |b.bvs| + r.Nr(q)
  {
    hide Counted, SegmentCount;
    var k := GreedyGroups(q, b.bvs);
    OneFields(q, b);
    MergedNr(q, One(b), r);
    BuiltIsCounted(q, r);
    RecountIsCounted(q, b.bvs, Head(b.bvs, k), Tail(b.bvs, k));
    CountedConcat(q, b.bvs, SegmentCount(q, b.bvs), Head(b.bvs, k), Tail(b.bvs, k), r.Bvs(), r.Nr(q), r.FrontSize(q), r.BackSize(q));
    CountedBounds(q, b.bvs + r.Bvs(), SegmentCount(q, b.bvs) + r.Nr(q), Head(b.bvs, k), r.BackSize(q));
    CountAtMost(q, b.bvs);
    ApartIsFull(q, b.bvs);
  }

  lemma SeparateCounts(q: Queue, a: seq<Bvec>, n: nat, fa: nat, ba: nat, b: seq<Bvec>, fb: nat, bb: nat)
    requires q.Ok() && Counted(q, a, n, fa, ba) && Counted(q, b, SegmentCount(q, b), fb, bb)
    ensures SegmentCount(q, a + b) <= n + SegmentCount(q, b) <= n + |b|
  {
    CountedConcat(q, a, n, fa, ba, b, SegmentCount(q, b), fb, bb);
    CountedBounds(q, a + b, n + SegmentCount(q, b), fa, bb);
    CountAtMost(q, b);
  }

  lemma CountAtMost(q: Queue, bvs: seq<Bvec>)
    requires q.Ok()
    ensures SegmentCount(q, bvs) <= |bvs|
  {
    if bvs != [] {
      MoreAtMost(q, bvs[0], bvs[0].len, bvs[1..]);
    }
  }

  /** Where the count is tight although the parts touch, the seam is too long for one segment. */
  lemma SeamTooLong(q: Queue, a: seq<Bvec>, j: seq<bool>, b: seq<Bvec>, k: seq<bool>)
    requires q.Ok() && Groups(q, a, j) && Groups(q, b, k) && Joinable(q, a[|a| - 1], b[0])
    requires SegmentCount(q, a + b) == Opens(j) + Opens(k)
    ensures Tail(a, j) + Head(b, k) > q.maxSegSize
  {
    if Tail(a, j) + Head(b, k) <= q.maxSegSize {
      JoinGroups(q, a, j, b, k);
      GreedyIsMinimal(q, a + b, j + ([true] + k[1..]));
    }
  }

  lemma SinglesGroups(q: Queue, bvs: seq<Bvec>)
    requires q.Ok() && bvs != []
    ensures var all := Singles(|bvs|);
            Groups(q, bvs, all) && Opens(all) == |bvs| && Head(bvs, all) == bvs[0].len && Tail(bvs, all) == bvs[|bvs| - 1].len
  {
    assert Singles(|bvs|)[1..] == Singles(|bvs| - 1);
    SinglesGroup(q, bvs[0], bvs[0].len, bvs[1..]);
  }

  lemma FrontNeedsRoom(q: Queue, r: Built, b: Bio)
    requires q.Ok() && Neighbour(q, r) && b.bvs != [] && Filled(b.bvs) && b.phys == |b.bvs| && Undercounts(q, r, One(b))
    ensures Apart(q, b.bvs) && RoomBefore(q, b.bvs[0], b.front)
  {
    TightFront(q, r, b);
    BuiltIsCounted(q, r);
    SinglesGroups(q, b.bvs);
    var a, x := r.Bvs(), b.bvs[0];
    hide Apart, SegmentCount;
    assert r.BackSize(q) + b.front <= q.maxSegSize && Joinable(q, a[|a| - 1], x);
    var j :| Groups(q, a, j) && Opens(j) == r.Nr(q) && Tail(a, j) <= r.BackSize(q);
    SeamTooLong(q, a, j, b.bvs, Singles(|b.bvs|));
    TailStretch(q, a, j, x);
    SameWindow(q.window, x.Phys() - Tail(a, j), x.Phys() - Need(q, x.len), x.Phys() + x.len - 1);
  }

  lemma BackNeedsRoom(q: Queue, b: Bio, r: Built)
    requires q.Ok() && Neighbour(q, r) && b.bvs != [] && Filled(b.bvs) && b.phys == |b.bvs| && Undercounts(q, One(b), r)
    ensures Apart(q, b.bvs) && RoomBehind(q, b.bvs[|b.bvs| - 1], b.back)
  {
    TightBack(q, b, r);
    BuiltIsCounted(q, r);
    SinglesGroups(q, b.bvs);
    var c, y := r.Bvs(), b.bvs[|b.bvs| - 1];
    hide Apart, SegmentCount;
    assert b.back + r.FrontSize(q) <= q.maxSegSize && Joinable(q, y, c[0]);
    var k :| Groups(q, c, k) && Opens(k) == r.Nr(q) && Head(c, k) <= r.FrontSize(q);
    SeamTooLong(q, b.bvs, Singles(|b.bvs|), c, k);
    StretchOn(q, y.Phys(), y, c[0]);
    FirstStretch(q, y.Phys(), c[0], c[0].len, c[1..], k[1..]);
    SameWindow(q.window, y.Phys(), y.Phys() + y.len + Need(q, y.len) - 1, y.Phys() + y.len + Head(c, k) - 1);
  }

  lemma OneVector(q: Queue, v: Bvec)
    requires q.Ok() && v.len > 0
    ensures var r := One(Bio([v], 1, v.len, v.len));
            Neighbour(q, r) && r.Bvs() == [v] && r.Nr(q) == 1 && Apart(q, [v])
  {
    VectorCountIsCounted(q, [v], v.len, v.len);
  }

  /** The request of one vector that fills the room in front of the bio. */
  lemma RoomUndercountsFront(q: Queue, b: Bio) returns (r: Built)
    requires q.Ok() && b.bvs != [] && b.phys == |b.bvs| && Apart(q, b.bvs) && RoomBefore(q, b.bvs[0], b.front)
    ensures Neighbour(q, r) && Undercounts(q, r, One(b))
  {
    var x := b.bvs[0];
    var n := Need(q, x.len);
    var v := At(x.Phys() - n, n);
    r := One(Bio([v], 1, n, n));
    OneVector(q, v);
    assert Joinable(q, v, x);
    hide Joinable;
    ApartConcat(q, [v], b.bvs);
    ApartIsFull(q, [v] + b.bvs);
    OneFields(q, b);
    OneFields(q, Bio([v], 1, n, n));
    MergedNr(q, r, One(b));
  }

  lemma RoomUndercountsBack(q: Queue, b: Bio) returns (r: Built)
    requires q.Ok() && b.bvs != [] && b.phys == |b.bvs| && Apart(q, b.bvs) && RoomBehind(q, b.bvs[|b.bvs| - 1], b.back)
    ensures Neighbour(q, r) && Undercounts(q, One(b), r)
  {
    var y := b.bvs[|b.bvs| - 1];
    var n := Need(q, y.len);
    var v := At(y.Phys() + y.len, n);
    r := One(Bio([v], 1, n, n));
    OneVector(q, v);
    assert Joinable(q, y, v);
    hide Joinable;
    ApartConcat(q, b.bvs, [v]);
    ApartIsFull(q, b.bvs + [v]);
    OneFields(q, b);
    OneFields(q, Bio([v], 1, n, n));
    MergedNr(q, One(b), r);
  }

  /** blk_recount_segments takes the vector count. */
  predicate Estimates(q: Queue, noSgMerge: bool, bio: Bio) { noSgMerge && |bio.bvs| < q.maxSegs }

  lemma CountedNeverUndercounts(q: Queue, r: Built, next: Built)
    requires q.Ok() && r.WellCounted(q) && next.WellCounted(q) && r.NonEmpty() && next.NonEmpty()
    ensures !Undercounts(q, r, next)
  {
    CounterBoundsScatterlist(q, Joined(r, next));
  }

  /**
   Some request in front of a recounted bio makes the merge count too few segments, exactly when the recount
   takes the vector count, no vectors of the bio join, and the memory before its first vector has room for
   just enough bytes in the same window.
   */
  lemma RecountUndercountsFront(q: Queue, noSgMerge: bool, bio: Bio)
    requires q.Ok() && bio.bvs != [] && Filled(bio.bvs)
    ensures (exists r :: Neighbour(q, r) && Undercounts(q, r, One(Recount(q, noSgMerge, bio)))) <==>
            Estimates(q, noSgMerge, bio) && Apart(q, bio.bvs) && RoomBefore(q, bio.bvs[0], bio.front)
  {
    var b := Recount(q, noSgMerge, bio);
    if Estimates(q, noSgMerge, bio) {
      hide Neighbour, Undercounts, Apart, RoomBefore;
      forall r | Neighbour(q, r) && Undercounts(q, r, One(b)) ensures Apart(q, b.bvs) && RoomBefore(q, b.bvs[0], b.front) {
        FrontNeedsRoom(q, r, b);
      }
      if Apart(q, b.bvs) && RoomBefore(q, b.bvs[0], b.front) {
        var r := RoomUndercountsFront(q, b);
      }
    } else {
      RecountIsSound(q, noSgMerge, bio);
      forall r | Neighbour(q, r) ensures !Undercounts(q, r, One(b)) {
        CountedNeverUndercounts(q, r, One(b));
      }
    }
  }

  /** The same for a request behind the bio. */
  lemma RecountUndercountsBack(q: Queue, noSgMerge: bool, bio: Bio)
    requires q.Ok() && bio.bvs != [] && Filled(bio.bvs)
    ensures (exists r :: Neighbour(q, r) && Undercounts(q, One(Recount(q, noSgMerge, bio)), r)) <==>
            Estimates(q, noSgMerge, bio) && Apart(q, bio.bvs) && RoomBehind(q, bio.bvs[|bio.bvs| - 1], bio.back)
  {
    var b := Recount(q, noSgMerge, bio);
    if Estimates(q, noSgMerge, bio) {
      hide Neighbour, Undercounts, Apart, RoomBehind;
      forall r | Neighbour(q, r) && Undercounts(q, One(b), r) ensures Apart(q, b.bvs) && RoomBehind(q, b.bvs[|b.bvs| - 1], b.back) {
        BackNeedsRoom(q, b, r);
      }
      if Apart(q, b.bvs) && RoomBehind(q, b.bvs[|b.bvs| - 1], b.back) {
        var r := RoomUndercountsBack(q, b);
      }
    } else {
      RecountIsSound(q, noSgMerge, bio);
      forall r | Neighbour(q, r) ensures !Undercounts(q, One(b), r) {
        CountedNeverUndercounts(q, One(b), r);
      }
    }
  }
}
