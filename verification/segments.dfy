/**
 Physical segments: the greedy count of blk-merge.c, the scatterlist it has to bound, and the running
 counter that requests carry while bios and requests are merged into them.
 */
module Segments {

  const PAGE_SIZE := 4096

  /** One bio_vec: `len` bytes from `offset` in page `page`. */
  datatype Bvec = Bvec(page: nat, offset: nat, len: nat)
  {
    function Phys(): nat { page * PAGE_SIZE + offset }
  }

  /** No vector is empty. */
  predicate Filled(bvs: seq<Bvec>) {
    forall i :: 0 <= i < |bvs| ==> bvs[i].len > 0
  }

  /**
   The limits of a queue: `window` is queue_segment_boundary + 1, and `virt` is queue_virt_boundary + 1,
   or 0 when the driver does not care about gaps.
   */
  datatype Queue = Queue(cluster: bool, maxSegSize: nat, maxSegs: nat, window: nat, virt: nat)
  {
    predicate Ok() { window >= 1 && maxSegs >= 1 }
  }

  /** BIOVEC_PHYS_MERGEABLE and BIOVEC_SEG_BOUNDARY, on a queue that clusters. */
  predicate Joinable(q: Queue, a: Bvec, b: Bvec)
    requires q.Ok()
  {
    && q.cluster
    && a.Phys() + a.len == b.Phys()
    && a.Phys() / q.window == (b.Phys() + b.len - 1) / q.window
  }

  predicate CanJoin(q: Queue, size: nat, a: Bvec, b: Bvec)
    requires q.Ok()
  {
    size + b.len <= q.maxSegSize && Joinable(q, a, b)
  }

  // ---- the greedy count ----

  /** How many segments the vectors open after `prev`, whose segment has `size` bytes so far. */
  function More(q: Queue, prev: Bvec, size: nat, bvs: seq<Bvec>): nat
    requires q.Ok()
    decreases |bvs|
  {
    if bvs == [] then 0
    else if CanJoin(q, size, prev, bvs[0]) then More(q, bvs[0], size + bvs[0].len, bvs[1..])
    else 1 + More(q, bvs[0], bvs[0].len, bvs[1..])
  }

  function SegmentCount(q: Queue, bvs: seq<Bvec>): nat
    requires q.Ok()
  {
    if bvs == [] then 0 else 1 + More(q, bvs[0], bvs[0].len, bvs[1..])
  }

  // ---- all ways of grouping vectors into segments ----

  /** `joins` tells for each vector whether it joins the segment of the one before it, within the limits. */
  predicate Grouping(q: Queue, prev: Bvec, size: nat, bvs: seq<Bvec>, joins: seq<bool>)
    requires q.Ok()
    decreases |bvs|
  {
    && |joins| == |bvs|
    && (bvs != [] ==>
          if joins[0] then CanJoin(q, size, prev, bvs[0]) && Grouping(q, bvs[0], size + bvs[0].len, bvs[1..], joins[1..])
          else Grouping(q, bvs[0], bvs[0].len, bvs[1..], joins[1..]))
  }

  function Opens(joins: seq<bool>): nat {
    if joins == [] then 0 else (if joins[0] then 0 else 1) + Opens(joins[1..])
  }

  /** Greedy stays ahead: it never opens more segments, or at most one more while its segment is longer. */
  lemma {:induction false} StaysAhead(q: Queue, prev: Bvec, greedy: nat, other: nat, bvs: seq<Bvec>, joins: seq<bool>)
    requires q.Ok() && Grouping(q, prev, other, bvs, joins)
    ensures More(q, prev, greedy, bvs) <= Opens(joins) + 1
    ensures greedy <= other ==> More(q, prev, greedy, bvs) <= Opens(joins)
    decreases |bvs|
  {
    if bvs != [] {
      var b := bvs[0];
      var g := if CanJoin(q, greedy, prev, b) then greedy + b.len else b.len;
      var o := if joins[0] then other + b.len else b.len;
      StaysAhead(q, b, g, o, bvs[1..], joins[1..]);
    }
  }

  /** A grouping of a whole, non-empty list: its first vector opens a segment. */
  predicate Groups(q: Queue, bvs: seq<Bvec>, joins: seq<bool>)
    requires q.Ok()
  {
    bvs != [] && |joins| == |bvs| && !joins[0] && Grouping(q, bvs[0], bvs[0].len, bvs[1..], joins[1..])
  }

  /** No grouping of the vectors into legal segments has fewer segments than the greedy count. */
  lemma GreedyIsMinimal(q: Queue, bvs: seq<Bvec>, joins: seq<bool>)
    requires q.Ok() && Groups(q, bvs, joins)
    ensures SegmentCount(q, bvs) <= Opens(joins)
  {
    StaysAhead(q, bvs[0], bvs[0].len, bvs[0].len, bvs[1..], joins[1..]);
  }

  /** What the greedy loop decides for each vector. */
  function GreedyJoins(q: Queue, prev: Bvec, size: nat, bvs: seq<Bvec>): (joins: seq<bool>)
    requires q.Ok()
    ensures Grouping(q, prev, size, bvs, joins) && Opens(joins) == More(q, prev, size, bvs)
    decreases |bvs|
  {
    if bvs == [] then []
    else if CanJoin(q, size, prev, bvs[0]) then [true] + GreedyJoins(q, bvs[0], size + bvs[0].len, bvs[1..])
    else [false] + GreedyJoins(q, bvs[0], bvs[0].len, bvs[1..])
  }

  function GreedyGroups(q: Queue, bvs: seq<Bvec>): (joins: seq<bool>)
    requires q.Ok() && bvs != []
    ensures Groups(q, bvs, joins) && Opens(joins) == SegmentCount(q, bvs)
  {
    [false] + GreedyJoins(q, bvs[0], bvs[0].len, bvs[1..])
  }

  // ---- sizes of the first and the last segment of a grouping ----

  /** Size of the segment that is open after the vectors, when it had `size` bytes before them. */
  function LastSize(size: nat, bvs: seq<Bvec>, joins: seq<bool>): nat
    requires |joins| == |bvs|
    decreases |bvs|
  {
    if bvs == [] then size
    else LastSize(if joins[0] then size + bvs[0].len else bvs[0].len, bvs[1..], joins[1..])
  }

  /** Size that the open segment reaches before the vectors open another one. */
  function FirstSize(size: nat, bvs: seq<Bvec>, joins: seq<bool>): nat
    requires |joins| == |bvs|
    decreases |bvs|
  {
    if bvs == [] || !joins[0] then size else FirstSize(size + bvs[0].len, bvs[1..], joins[1..])
  }

  function Head(bvs: seq<Bvec>, joins: seq<bool>): nat
    requires |joins| == |bvs| && bvs != []
  {
    FirstSize(bvs[0].len, bvs[1..], joins[1..])
  }

  function Tail(bvs: seq<Bvec>, joins: seq<bool>): nat
    requires |joins| == |bvs| && bvs != []
  {
    LastSize(bvs[0].len, bvs[1..], joins[1..])
  }

  function Last(prev: Bvec, bvs: seq<Bvec>): Bvec { if bvs == [] then prev else bvs[|bvs| - 1] }

  /** Continuing a grouping with another one, whose first vector opens a segment or joins the open one. */
  lemma {:induction false} GroupingConcat(q: Queue, prev: Bvec, size: nat, a: seq<Bvec>, j: seq<bool>, b: seq<Bvec>, k: seq<bool>)
    requires q.Ok() && Grouping(q, prev, size, a, j) && |k| == |b|
    requires Grouping(q, Last(prev, a), LastSize(size, a, j), b, k)
    ensures Grouping(q, prev, size, a + b, j + k)
    ensures Opens(j + k) == Opens(j) + Opens(k)
    ensures LastSize(size, a + b, j + k) == LastSize(LastSize(size, a, j), b, k)
    ensures Opens(j) > 0 ==> FirstSize(size, a + b, j + k) == FirstSize(size, a, j)
    ensures Opens(j) == 0 ==> FirstSize(size, a + b, j + k) == FirstSize(LastSize(size, a, j), b, k)
    decreases |a|
  {
    if a == [] {
      assert a + b == b && j + k == k;
    } else {
      assert (a + b)[1..] == a[1..] + b && (j + k)[1..] == j[1..] + k;
      GroupingConcat(q, a[0], if j[0] then size + a[0].len else a[0].len, a[1..], j[1..], b, k);
    }
  }

  // ---- counters that over-approximate ----

  /** Some legal grouping has `nr` segments, its first of at most `front` and its last of at most `back` bytes. */
  ghost predicate Counted(q: Queue, bvs: seq<Bvec>, nr: nat, front: nat, back: nat)
    requires q.Ok()
  {
    bvs != [] && exists joins :: Groups(q, bvs, joins) && Opens(joins) == nr && Head(bvs, joins) <= front && Tail(bvs, joins) <= back
  }

  lemma CountedBounds(q: Queue, bvs: seq<Bvec>, nr: nat, front: nat, back: nat)
    requires q.Ok() && Counted(q, bvs, nr, front, back)
    ensures SegmentCount(q, bvs) <= nr
  {
    var joins :| Groups(q, bvs, joins) && Opens(joins) == nr;
    GreedyIsMinimal(q, bvs, joins);
  }

  lemma {:induction false} OpensPositive(q: Queue, bvs: seq<Bvec>, joins: seq<bool>)
    requires q.Ok() && Groups(q, bvs, joins)
    ensures Opens(joins) == 1 + Opens(joins[1..])
    ensures Opens(joins) == 1 ==> Head(bvs, joins) == Tail(bvs, joins)
  {
    if Opens(joins) == 1 {
      OneSegment(bvs[0].len, bvs[1..], joins[1..]);
    }
  }

  lemma {:induction false} OneSegment(size: nat, bvs: seq<Bvec>, joins: seq<bool>)
    requires |joins| == |bvs| && Opens(joins) == 0
    ensures FirstSize(size, bvs, joins) == LastSize(size, bvs, joins)
    decreases |bvs|
  {
    if bvs != [] {
      OneSegment(size + bvs[0].len, bvs[1..], joins[1..]);
    }
  }

  /** ll_new_hw_segment: counting the two parts separately stays an over-approximation. */
  lemma CountedConcat(q: Queue, a: seq<Bvec>, n: nat, fa: nat, ba: nat, b: seq<Bvec>, m: nat, fb: nat, bb: nat)
    requires q.Ok() && Counted(q, a, n, fa, ba) && Counted(q, b, m, fb, bb)
    ensures Counted(q, a + b, n + m, fa, bb)
  {
    var j :| Groups(q, a, j) && Opens(j) == n && Head(a, j) <= fa && Tail(a, j) <= ba;
    var k :| Groups(q, b, k) && Opens(k) == m && Head(b, k) <= fb && Tail(b, k) <= bb;
    var x, y := a + b, j + k;
    assert x[1..] == a[1..] + b && y[1..] == j[1..] + k;
    assert Last(a[0], a[1..]) == a[|a| - 1];
    OpensPositive(q, a, j);
    OpensPositive(q, b, k);
    GroupingConcat(q, a[0], a[0].len, a[1..], j[1..], b, k);
    assert Opens(y) == n + m && Head(x, y) == Head(a, j) && Tail(x, y) == Tail(b, k);
  }

  /** ll_merge_requests_fn: when the parts touch in memory and fit together, one segment is saved. */
  lemma CountedJoin(q: Queue, a: seq<Bvec>, n: nat, fa: nat, ba: nat, b: seq<Bvec>, m: nat, fb: nat, bb: nat)
    requires q.Ok() && Counted(q, a, n, fa, ba) && Counted(q, b, m, fb, bb)
    requires ba + fb <= q.maxSegSize && Joinable(q, a[|a| - 1], b[0])
    ensures Counted(q, a + b, n + m - 1, if n == 1 then ba + fb else fa, if m == 1 then ba + fb else bb)
  {
    var j :| Groups(q, a, j) && Opens(j) == n && Head(a, j) <= fa && Tail(a, j) <= ba;
    var k :| Groups(q, b, k) && Opens(k) == m && Head(b, k) <= fb && Tail(b, k) <= bb;
    JoinGroups(q, a, j, b, k);
    var y := j + ([true] + k[1..]);
    assert Groups(q, a + b, y) && Opens(y) == n + m - 1;
  }

  lemma JoinGroups(q: Queue, a: seq<Bvec>, j: seq<bool>, b: seq<Bvec>, k: seq<bool>)
    requires q.Ok() && Groups(q, a, j) && Groups(q, b, k)
    requires Tail(a, j) + Head(b, k) <= q.maxSegSize && Joinable(q, a[|a| - 1], b[0])
    ensures var x, y := a + b, j + ([true] + k[1..]);
            && Groups(q, x, y) && Opens(y) == Opens(j) + Opens(k) - 1
            && Head(x, y) == (if Opens(j) == 1 then Tail(a, j) + Head(b, k) else Head(a, j))
            && Tail(x, y) == (if Opens(k) == 1 then Tail(a, j) + Head(b, k) else Tail(b, k))
  {
    var k', t := [true] + k[1..], Tail(a, j);
    OpensPositive(q, a, j);
    OpensPositive(q, b, k);
    JoinFirst(q, a[|a| - 1], t, b, k);
    hide Joinable, CanJoin;
    assert Last(a[0], a[1..]) == a[|a| - 1];
    GroupingConcat(q, a[0], a[0].len, a[1..], j[1..], b, k');
    hide Grouping, Opens, FirstSize, LastSize;
    assert (a + b)[1..] == a[1..] + b && (j + k')[1..] == j[1..] + k';
    OpensFirst(j + k');
    OpensFirst(j);
  }

  lemma OpensFirst(joins: seq<bool>)
    requires joins != []
    ensures Opens(joins) == (if joins[0] then 0 else 1) + Opens(joins[1..])
  {
  }

  /** The first segment of a grouping continues a segment of `t` bytes that ends with `prev`. */
  lemma JoinFirst(q: Queue, prev: Bvec, t: nat, b: seq<Bvec>, k: seq<bool>)
    requires q.Ok() && Groups(q, b, k) && t + Head(b, k) <= q.maxSegSize && Joinable(q, prev, b[0])
    ensures var k' := [true] + k[1..];
            && Grouping(q, prev, t, b, k') && Opens(k') == Opens(k) - 1
            && FirstSize(t, b, k') == t + Head(b, k)
            && LastSize(t, b, k') == if Opens(k) == 1 then t + Head(b, k) else Tail(b, k)
  {
    var k' := [true] + k[1..];
    OpensPositive(q, b, k);
    LargerStart(q, b[0], b[0].len, t, b[1..], k[1..]);
    assert k'[1..] == k[1..];
  }

  /** A grouping stays legal when its first segment starts out longer, as long as that segment still fits. */
  lemma {:induction false} LargerStart(q: Queue, prev: Bvec, size: nat, extra: nat, bvs: seq<Bvec>, joins: seq<bool>)
    requires q.Ok() && Grouping(q, prev, size, bvs, joins)
    requires FirstSize(size, bvs, joins) + extra <= q.maxSegSize
    ensures Grouping(q, prev, size + extra, bvs, joins)
    ensures FirstSize(size + extra, bvs, joins) == FirstSize(size, bvs, joins) + extra
    ensures LastSize(size + extra, bvs, joins) == LastSize(size, bvs, joins) + if Opens(joins) == 0 then extra else 0
    ensures FirstSize(size, bvs, joins) >= size
    decreases |bvs|
  {
    if bvs != [] && joins[0] {
      FirstGrows(size + bvs[0].len, bvs[1..], joins[1..]);
      LargerStart(q, bvs[0], size + bvs[0].len, extra, bvs[1..], joins[1..]);
    }
  }

  lemma {:induction false} FirstGrows(size: nat, bvs: seq<Bvec>, joins: seq<bool>)
    requires |joins| == |bvs|
    ensures FirstSize(size, bvs, joins) >= size
    decreases |bvs|
  {
    if bvs != [] && joins[0] {
      FirstGrows(size + bvs[0].len, bvs[1..], joins[1..]);
    }
  }
}
